# A Dafny model of the repository's pure cores

The repository is a collection of small tools and sites. Most of its code renders pages, shells out or talks to
web services. This project models the parts that compute something and proves what they promise:

- **The mission-control task relay.** A dashboard issues a task to an agent and stores it locally as pending. A
  notifier forwards the task to the operator's chat. A webhook reads the operator's reply, extracts the task id
  and writes a completion record to a shared store. The dashboard polls that store and surfaces the reply.
  Modules: `Relay`, `Webhook`, `Notifier`, `Issuer`.
- **The Australian phone-number validator.** It normalises a number, classifies it as mobile, landline or
  toll-free, and lays it out. Module: `Phone`.
- **The ticket scraper.** This covers the day-over-day diff of event snapshots and the change report
  (`Tickets`). It also covers the page-text classification, price and VIP extraction, and the caption split
  (`TicketDetails`).
- **The recipe-to-shopping-list converter.** It filters ingredient lines and picks an emoji category for each.
  Module: `Recipe`.
- **The anime TikTok generator.**
  - The ranking, explainer, VS and generic script generators: `Ranking`, `Explainer`, `VsBattle`, `TikTokScript`.
  - Python's `str.format` on the templates: `Formatting`.
  - The video maker's frame schedule, renumbering and dispatch: `AnimeVideo`.
  - How the generators' scripts fare in the video maker: `AnimePipeline`.
- **The state machines of three trade-site templates.**
  - The handyman gallery carousel and service picker: `Handyman`.
  - The HVAC thermometer animation, season selections and temperature badges: `Hvac`.
  - The locksmith response counter and scroll lock: `Locksmith`.
  - The FAQ accordion the three templates share: `Accordion`.

Shared helpers:

- `Wrappers`: `Option`.
- `Text`: whitespace sets, trimming, substring search, ASCII lower-casing, split and join.
- `Decimal`: decimal rendering, parsing and zero padding.
- `Modular`: facts about remainders.

Everything is a pure function over immutable data. The things a program reads from outside become parameters:

- the clock ("now"), random choices and fetched pages;
- the result of writing, committing and pushing a file;
- the bot token and the upstream chat service's answer;
- the browser's local-store key enumeration and scroll position;
- whether ffmpeg succeeded.

Strings are sequences of Unicode scalar values. Python floats are Dafny reals.

Where the specification and the code differ, the model follows the code. For example, the webhook trims only
whitespace from the reply, so `"scribe-1 - Here"` yields the content `"- Here"` with the dash kept
(`Webhook.DashSurvivesExample`).

The scraper's price pattern lists the single amount before the range, so a range is reported as two prices
(see "## Findings"). `TicketDetails.FetchDetails` uses the pattern as written by default. The corrected pattern,
with the range first, can be passed in its place (`TicketDetails.CorrectedFetchKeepsRange`).

## Model

| member | source | states |
|---|---|---|
| Relay.AgentOfTaskId | mission-control/api/webhook.js:35-36 | The agent part (`split('-')[0]`) of a well-formed task id is exactly the tag it was built from. |
| Relay.OperatorChatString | mission-control/api/webhook.js:26 | A chat id's string form equals `'7548763122'` exactly when the numeric id is 7548763122. |
| Webhook.DigitRun | mission-control/api/webhook.js:32 | The greedy `\d+` run: all digits, and not followed by a digit. |
| Webhook.DigitRunUnique | mission-control/api/webhook.js:32 | Any maximal digit run at a position is the one `DigitRun` finds. |
| Webhook.MatchTagAt | mission-control/api/webhook.js:32 | One alternative `<tag>-\d+` matched at `i` is a task id for that tag, written at `i`, with a maximal digit run. |
| Webhook.MatchFromSound | mission-control/api/webhook.js:32 | What the ordered alternatives find at a position is a task id written there. |
| Webhook.MatchFromNone | mission-control/api/webhook.js:32 | When the alternatives find nothing at a position, each of them failed there. |
| Webhook.MatchComplete | mission-control/api/webhook.js:32 | Every task id written at a position is found by the alternatives. |
| Webhook.FindFrom | mission-control/api/webhook.js:32 | The search returns a position at or after its start where the pattern matches, with the id matched there. |
| Webhook.FindFromLeftmost | mission-control/api/webhook.js:32 | The search skips no match: none lies before the position found, and none exists anywhere when nothing is found. |
| Webhook.FoundIsId | mission-control/api/webhook.js:32-35 | The extracted id is a task id written where it was found. |
| Webhook.FoundIsLeftmost | mission-control/api/webhook.js:32-35 | No task id is written before the extracted one, so no word boundary is needed. |
| Webhook.NotFoundMeansNone | mission-control/api/webhook.js:32-34 | When nothing is extracted, no task id of any tag is written anywhere in the text. |
| Webhook.IdAtUnique | mission-control/api/webhook.js:32 | At most one task id is written at any position. |
| Webhook.FindTaskIdCharacterised | mission-control/api/webhook.js:32-35 | The extracted id is the unique id at the leftmost position where any id is written (the converse of the two lemmas above). |
| Webhook.SecondPiece | mission-control/api/webhook.js:41 | `text.split(id)[1]` is the text between the first occurrence of the id and the next one or the end, and holds no occurrence of the id. |
| Webhook.ResponseContent | mission-control/api/webhook.js:39-42 | The content is never empty: it is the whole text, or the trimmed second piece without the id. |
| Webhook.CompletionRecord | mission-control/api/webhook.js:45-53 | The record has the id, the agent before the first `-`, status `completed`, the content and the completion time. |
| Webhook.Handle | mission-control/api/webhook.js:10-85 | Non-POST gives 405, and no text gives 200 ok; both leave the store unchanged. A text message without `chat.id` throws before the `try`, so it gives 500 and writes nothing. A foreign chat gives 200 ok with no record. No id gives 200 "No task ID found". An operator message with an id and a successful push is saved. A saved reply writes exactly the completion record, without checking that the task exists, and echoes the id. A failed write or push gives 500. |
| Webhook.SavesLeftmostId | mission-control/api/webhook.js:22-72 | When the leftmost task id in an operator's message is `id` and the push succeeds, the reply is 200 "Response saved" with `id`, and the store gains exactly `id`'s completion record. |
| Webhook.SegmentationExample | mission-control/api/webhook.js:39-42 | `"sage-1000 Audit done"` yields the content `"Audit done"`. |
| Webhook.DashSurvivesExample | mission-control/api/webhook.js:41 | Only whitespace is trimmed: `"scribe-1 - Here"` yields `"- Here"`. |
| Webhook.BareIdExample | mission-control/api/webhook.js:41 | A text that is only an id is its own content. |
| Webhook.NoWordBoundaryExample | mission-control/api/webhook.js:32 | `"xdev-12 done"` yields the id `"dev-12"` at position 1. |
| Notifier.MessageText | mission-control/api/telegram.js:25-34 | The message starts with the header and ends with the footer. The agent name, task id and request appear verbatim at fixed positions. |
| Notifier.QuotedRequest | mission-control/api/telegram.js:31-32 | A request read back out of a message rebuilds that message. |
| Notifier.QuotedRequestRoundTrip | mission-control/api/telegram.js:31-32 | The request is carried verbatim, with no truncation or escaping: it reads back out of its own message. |
| Notifier.Handle | mission-control/api/telegram.js:4-75 | The checks run in order: 405, then 400 for a falsy field, then 500 for a missing token, all without a call. A call goes to the operator chat with the message. Delivery gives 200 with the message id and the input task id. A rejection or a throw gives 500. |
| Notifier.AgentIdIgnored | mission-control/api/telegram.js:10-14 | `agentId` is neither validated nor used. |
| Notifier.RecipientIsAcceptedSender | mission-control/api/telegram.js:17 | The notifier's recipient is the chat id the webhook accepts. |
| Issuer.FindName | mission-control/src/App.jsx:130 | `agents.find(...)?.name` finds the agent's roster name, or nothing exactly when no roster entry has that id. |
| Issuer.AppendChat | mission-control/src/App.jsx:134-137 | The agent's chat grows by one message; every other chat is unchanged. |
| Issuer.Preview | mission-control/src/App.jsx:190 | A request of at most 80 characters is quoted whole. A longer one gives its first 80 characters followed by `...`. |
| Issuer.Submit | mission-control/src/App.jsx:125-207 | Blank input or no selected agent changes nothing. Otherwise the id is `agent-now`, the pending task (with the untrimmed request) is stored under `task-<id>`, and `activeTasks[agent]` becomes the id. The input is cleared, the user's message is appended to the agent's chat, and the payload is produced. The task card is the agent's `CardText` for the id, the roster name and the request. |
| Issuer.CardShows | mission-control/src/App.jsx:183-197 | The card's text contains the task id, the agent's name (`undefined` when there is none) and the request's preview. |
| Issuer.SubmitCardQuotes | mission-control/src/App.jsx:183-197 | A submission's card names its task id and quotes the request whole when it has at most 80 characters, else its first 80 characters followed by `...`. |
| Issuer.ShowCard | mission-control/src/App.jsx:201-206 | The delayed card is appended to the agent's chat as it is then; nothing else changes. |
| Issuer.PayloadFields | mission-control/src/App.jsx:156-162 | A submitted payload has a non-empty id and request, and the roster's name for its agent. |
| Issuer.PayloadAccepted | mission-control/src/App.jsx:156-169 | A payload that names its agent passes the notifier's field check. One with no name is refused with 400. |
| Issuer.SubmissionAccepted | mission-control/src/App.jsx:156-169 | A payload for a rostered agent passes the notifier's field check. One for an agent with no roster name is refused with 400. |
| Issuer.NotificationKeepsTask | mission-control/src/App.jsx:164-179 | Whatever the notifier answers, and also when the fetch fails, the handlers only log: the submitted task stays stored as pending with its request, and stays the agent's active task. |
| Issuer.NewTaskIdIsTaskId | mission-control/src/App.jsx:129 | The id of a new task is one the webhook's pattern reads, and its agent part is the agent. |
| Issuer.PendingTasks | mission-control/src/App.jsx:212-221 | The snapshot holds exactly the entries whose key starts with `task-`, has no `-completed`, and whose status is pending. |
| Issuer.Surface | mission-control/src/App.jsx:232-259 | The agent message is appended unless a completion for the task is already shown. The entry becomes completed, a `-completed` copy is stored, and the agent's active task is deleted. |
| Issuer.Step | mission-control/src/App.jsx:226-264 | A non-ok fetch, a thrown error or an unfinished record leaves the state as it was. |
| Issuer.SubmitPreservesWellFormed | mission-control/src/App.jsx:150 | Submitting keeps every task under the key its id names. |
| Issuer.SurfacePreservesWellFormed | mission-control/src/App.jsx:251-252 | Surfacing keeps every task under the key its id names. |
| Issuer.FoldSettles | mission-control/src/App.jsx:225-265 | After a pass, no pending entry has a surfaceable record. |
| Issuer.FoldQuiet | mission-control/src/App.jsx:225-265 | A pass over tasks that cannot be surfaced changes nothing. |
| Issuer.PollSettles | mission-control/src/App.jsx:210-266 | After a poll, nothing surfaceable is left pending. |
| Issuer.PollIdempotent | mission-control/src/App.jsx:210-266 | Polling again against the same remote store changes nothing. |
| Issuer.FoldKeepsCompletion | mission-control/src/App.jsx:240-248 | A completion message, once shown, stays shown. |
| Issuer.FoldSurfaces | mission-control/src/App.jsx:225-260 | Every task in the snapshot whose record is surfaceable ends up shown. |
| Issuer.RemoteOf | mission-control/src/App.jsx:227-228 | The poll sees the store's records, and a non-ok answer for an id not in the store. |
| Issuer.RelayRoundTrip | mission-control/src/App.jsx:210-260 | When an operator's message whose leftmost task id names a pending task is saved with a successful push, the next poll shows the completion in the agent's chat and the task is no longer pending. |
| Phone.DigitsOnly | validate_australian_phone.py:24 | `re.sub(r'\D', '', s)` keeps exactly the digits, in order. |
| Phone.Normalize | validate_australian_phone.py:24-28 | The normalised number is all digits. |
| Phone.CodeToZero | validate_australian_phone.py:28 | `'0' + digits[2:]`: a leading 0 followed by the digits after the first two. |
| Phone.CountryCodeReplaced | validate_australian_phone.py:27-28 | When the stripped input starts with `+61`, its digits start with `61`, and the normalised number is `0` followed by the rest. |
| Phone.Validate | validate_australian_phone.py:30-64 | The number is valid exactly when it has a class, and each class holds exactly when its pattern matches the normalised digits. An invalid number is returned unchanged. A valid one has ten digits, and its layout holds exactly those digits. |
| Phone.ClassesDisjoint | validate_australian_phone.py:38-56 | Mobile, landline and toll-free never overlap. |
| Phone.ValidateIdempotent | validate_australian_phone.py:38-61 | Validating a result's `formatted` string gives the same result back. |
| Phone.FormattedNormalizes | validate_australian_phone.py:41-60 | A valid result's layout normalises to the same ten digits. |
| Phone.ValidateMobile | validate_australian_phone.py:38-42 | Mobile digits give a valid mobile result in the `dddd ddd ddd` layout. |
| Phone.ValidateLandline | validate_australian_phone.py:47-52 | Landline digits give a valid landline result in the `(0X) XXXX XXXX` layout. |
| Phone.ValidateTollFree | validate_australian_phone.py:54-61 | 1800 and 1300 digits give a valid toll-free result laid out `PPPP XXX XXX`. |
| Phone.ValidateUnknown | validate_australian_phone.py:30-34 | Digits in no class give an invalid `unknown` result carrying the input. |
| Phone.InternationalMobileExample | validate_australian_phone.py:71 | `'+61 412 345 678'` is the mobile `'0412 345 678'`. |
| Phone.LandlineExample | validate_australian_phone.py:75 | `'(02) 9876 5432'` is the landline `'(02) 9876 5432'`. |
| Phone.TooShortExample | validate_australian_phone.py:88 | `'04 12 345'` is invalid. |
| Phone.TollFreeExample | validate_australian_phone.py:84 | `'1800123456'` is the toll-free `'1800 123 456'`. |
| Phone.BadPrefixExample | validate_australian_phone.py:86 | `'1234 567 890'` is invalid. |
| Tickets.Index | skills/ticket-scraper/scripts/ticket_scraper.py:294-307 | The snapshot's listed keys are exactly its keys, each listed once. |
| Tickets.IndexFirst | skills/ticket-scraper/scripts/ticket_scraper.py:297-299 | Every key in the snapshot first appears at some row. |
| Tickets.IndexOrder | skills/ticket-scraper/scripts/ticket_scraper.py:297-299 | Keys are listed in the order of the rows where they first appear, as a Python dict keeps insertion order. |
| Tickets.IndexCovers | skills/ticket-scraper/scripts/ticket_scraper.py:297-299 | Every row's `artist-date-venue` key is in the snapshot. |
| Tickets.IndexLast | skills/ticket-scraper/scripts/ticket_scraper.py:297-299 | Under each key the snapshot holds the last row with that key. |
| Tickets.KeysCanCollide | skills/ticket-scraper/scripts/ticket_scraper.py:298 | Two different rows can share a key, and then only the later one survives. |
| Tickets.IndexSameKey | skills/ticket-scraper/scripts/ticket_scraper.py:298-299 | Two rows under one key leave one listed key holding the later row. |
| Tickets.Diff | skills/ticket-scraper/scripts/ticket_scraper.py:310-333 | Each of today's keys adds at most one new event or price change, and at most one status change. |
| Tickets.DiffNew | skills/ticket-scraper/scripts/ticket_scraper.py:310-312 | A row is a new event exactly when it is today's row under a key yesterday lacks. |
| Tickets.DiffRepriced | skills/ticket-scraper/scripts/ticket_scraper.py:315-324 | A price change is recorded exactly for a key on both days whose price moved to a non-empty one. |
| Tickets.DiffSoldOut | skills/ticket-scraper/scripts/ticket_scraper.py:327-331 | A row is sold-out news exactly when its key is on both days and its status moved to `sold_out`. |
| Tickets.DiffOnSale | skills/ticket-scraper/scripts/ticket_scraper.py:327-333 | A row is on-sale news exactly when its key is on both days and its status moved to `on_sale`. |
| Tickets.Compare | skills/ticket-scraper/scripts/ticket_scraper.py:281-290 | A missing day gives four empty lists. |
| Tickets.CompareContents | skills/ticket-scraper/scripts/ticket_scraper.py:292-333 | For two days with data, the four lists are characterised key by key. Disappeared rows are never reported. |
| Tickets.ReportedRowsAreToday | skills/ticket-scraper/scripts/ticket_scraper.py:306-312 | Every reported row is one of today's rows, the last under its key. |
| Tickets.PriceAndStatusTogether | skills/ticket-scraper/scripts/ticket_scraper.py:315-333 | One row can be both a price change and an on-sale change. |
| Tickets.NewEventLines | skills/ticket-scraper/scripts/ticket_scraper.py:348-351 | One bullet per new event; the tickets line is not a bullet. |
| Tickets.SectionShape | skills/ticket-scraper/scripts/ticket_scraper.py:346-366 | An empty category adds nothing; otherwise a heading and its bullets. |
| Tickets.ReportShape | skills/ticket-scraper/scripts/ticket_scraper.py:340-371 | The report shows at most ten bullets per category, and contains the "No changes" line exactly when all four lists are empty. |
| TicketDetails.ClassifyStatus | skills/ticket-scraper/scripts/ticket_scraper.py:89-93 | `sold_out` exactly when the lower-cased text says "sold out". `on_sale` exactly when it does not and says "find tickets" or "buy tickets". Otherwise `announced`. |
| TicketDetails.ClassifyIgnoresCase | skills/ticket-scraper/scripts/ticket_scraper.py:90-92 | A page and its lower-cased text get the same status. |
| TicketDetails.KeywordFromFinds | skills/ticket-scraper/scripts/ticket_scraper.py:96 | The lazy `VIP.*?` scan finds a keyword later on the same line. |
| TicketDetails.RangeShadowed | skills/ticket-scraper/scripts/ticket_scraper.py:103 | Wherever the range alternative matches, the amount alternative already matches. |
| TicketDetails.AsWrittenNeverRange | skills/ticket-scraper/scripts/ticket_scraper.py:103-104 | As written, no price found contains a dash. |
| TicketDetails.AsWrittenSplitsRange | skills/ticket-scraper/scripts/ticket_scraper.py:103-104 | As written, `"$50 - $100"` gives the two prices `"$50"` and `"$100"`. |
| TicketDetails.RangeFirstKeepsRange | skills/ticket-scraper/scripts/ticket_scraper.py:103-104 | With the range alternative first, `"$50 - $100"` gives the one range. |
| TicketDetails.RangeFirstAgrees | skills/ticket-scraper/scripts/ticket_scraper.py:103 | With the range first, a range matches whole, and elsewhere the pattern matches as written. |
| TicketDetails.Distinct | skills/ticket-scraper/scripts/ticket_scraper.py:100-106 | `list(set(xs))` has the same elements, each once, and is no longer. |
| TicketDetails.ShownPrices | skills/ticket-scraper/scripts/ticket_scraper.py:103-106 | `list(set(matches))[:2]`: `min(2, distinct)` prices, each a match and each once; none exactly when nothing matched. |
| TicketDetails.FetchDetails | skills/ticket-scraper/scripts/ticket_scraper.py:68-112 | An empty URL or a failed fetch gives the default result. Otherwise the status is classified from the text. There are `min(3, distinct)` distinct VIP names, all taken from the matches. The price is the shown prices joined with `", "`, and empty exactly when the price pattern matched nothing. The pattern is the one the scraper writes unless another is passed. |
| TicketDetails.FetchSplitsRange | skills/ticket-scraper/scripts/ticket_scraper.py:103-106 | On the page `"$50 - $100"` the scraper as written reports the price `"$50, $100"`. |
| TicketDetails.CorrectedFetchKeepsRange | skills/ticket-scraper/scripts/ticket_scraper.py:103-106 | With the range alternative first, the same page reports the price `"$50 - $100"`. |
| TicketDetails.SplitCaption | skills/ticket-scraper/scripts/ticket_scraper.py:146-151 | With no comma, the whole caption is the venue and the city is empty. Otherwise the city is the stripped text before the first comma and the venue the stripped text after it. |
| TicketDetails.SplitCaptionRoundTrip | skills/ticket-scraper/scripts/ticket_scraper.py:146-149 | `"City, Venue"` splits back into that city and venue. |
| Recipe.Ingredient | skills/recipe-shopping/recipe_to_list.py:69-85 | A line is dropped exactly when, stripped, it is blank, a header, a numbered step, mentions a skip word, or cleans to at most two characters. A kept line is its cleaned text. |
| Recipe.Ingredients | skills/recipe-shopping/recipe_to_list.py:66-85 | No more ingredients than lines. |
| Recipe.IngredientsAppend | skills/recipe-shopping/recipe_to_list.py:69-85 | The filter works line by line, so output order is input order. |
| Recipe.IngredientsFromLines | skills/recipe-shopping/recipe_to_list.py:69-85 | Every ingredient is the filtered form of some line. |
| Recipe.IngredientInsideLine | skills/recipe-shopping/recipe_to_list.py:78-85 | A kept ingredient is a piece of its line, and has no skip word and no header ending. |
| Recipe.FirstHit | skills/recipe-shopping/recipe_to_list.py:17-40 | The first category, in the fixed order, that the lower-cased item hits. |
| Recipe.EmojiForFirstHit | skills/recipe-shopping/recipe_to_list.py:14-40 | The cart exactly when no category is hit. Otherwise the emoji of a hit category with no earlier hit. |
| Recipe.TitleShape | skills/recipe-shopping/recipe_to_list.py:42 | The title is the emoji, a space, then the item. |
| Recipe.GarlicMincedIsMeat | skills/recipe-shopping/recipe_to_list.py:23-27 | `'2 cloves garlic, minced'` gets the meat emoji, because "mince" is tried before "garlic". |
| Recipe.Successes | skills/recipe-shopping/recipe_to_list.py:94-97 | The success count never exceeds the number of attempts. |
| Recipe.AddAll | skills/recipe-shopping/recipe_to_list.py:94-97 | One title per ingredient, in order. The added count is the number of successes, at most the ingredient count. |
| Recipe.ToShoppingList | skills/recipe-shopping/recipe_to_list.py:61-99 | The titles are the recipe's ingredients' titles. Nothing is added when none are found. |
| Formatting.Format | skills/anime-tiktok-generator/scripts/generate_explainer.py:105-106 | `str.format` succeeds exactly when every field has a value; otherwise it raises `KeyError`. |
| Formatting.FieldShown | skills/anime-tiktok-generator/scripts/generate_explainer.py:105-106 | Each field's value appears in the result. |
| Formatting.FormatUsesOnlyFields | skills/anime-tiktok-generator/scripts/generate_explainer.py:110 | Unused keyword arguments do not affect the result. |
| Formatting.FieldContained | skills/anime-tiktok-generator/scripts/generate_vs.py:51-52 | A named field's value is a substring of the result. |
| Ranking.TemplateFor | skills/anime-tiktok-generator/scripts/generate_ranking.py:68 | An unknown style gets the `strongest` template. Every template has ten items ranked 10 to 1, with `{count}` as the only field. |
| Ranking.Reverse | skills/anime-tiktok-generator/scripts/generate_ranking.py:72 | Position `i` holds the element from the mirrored position. |
| Ranking.RankFrom | skills/anime-tiktok-generator/scripts/generate_ranking.py:74-75 | Item `i` gets rank `first - i`, everything else kept. |
| Ranking.Generate | skills/anime-tiktok-generator/scripts/generate_ranking.py:65-107 | Type `ranking`. `min(count, 10)` items for `count >= 0`, Python's negative slice otherwise. Item `i` is template item `n-1-i` with rank `count - i`. Duration `count*1.5 + 5`, time per item 1.5. |
| Ranking.RanksCountDown | skills/anime-tiktok-generator/scripts/generate_ranking.py:74-75 | Ranks fall by exactly one per item, from `count` to 1 when `0 < count <= 10`. |
| Ranking.GoatLeads | skills/anime-tiktok-generator/scripts/generate_ranking.py:71-75 | With `count=10` the template's rank-1 entry "The GOAT" comes first with rank 10. |
| Ranking.UnknownStyleIsStrongest | skills/anime-tiktok-generator/scripts/generate_ranking.py:68 | An unknown style gives the `strongest` script, still labelled with the requested style. |
| Ranking.RestoreRanks | skills/anime-tiktok-generator/scripts/generate_ranking.py:16-63 | Position `j` gets the template rank `10 - j`. |
| Ranking.UndoRanking | skills/anime-tiktok-generator/scripts/generate_ranking.py:71-75 | Reversing the items and restoring template ranks gives back `items[:count]`. |
| Ranking.TitleShowsCount | skills/anime-tiktok-generator/scripts/generate_ranking.py:80 | The title contains the count. |
| Ranking.StrongestHookShowsCount | skills/anime-tiktok-generator/scripts/generate_ranking.py:82 | The `strongest` hook contains the count. |
| Ranking.OtherHooksFixed | skills/anime-tiktok-generator/scripts/generate_ranking.py:82 | The other two hooks do not depend on the count. |
| Explainer.TemplateFor | skills/anime-tiktok-generator/scripts/generate_explainer.py:100 | An unknown name gets `concept`. Every template names topic and series in its title and the topic in its hook, with only the topic in the outro. |
| Explainer.Generate | skills/anime-tiktok-generator/scripts/generate_explainer.py:98-120 | Type `explainer`, the requested template name, the template's sections unchanged, duration = section sum + 8. The title shows topic and series, and the hook shows the topic. |
| Explainer.UnknownTemplateIsConcept | skills/anime-tiktok-generator/scripts/generate_explainer.py:100-104 | An unknown name gives the `concept` script with the requested name recorded. |
| Explainer.ExplainerSeconds | skills/anime-tiktok-generator/scripts/generate_explainer.py:111 | 38 s for `mechanic`, 37 s for every other name. |
| Explainer.OutroIgnoresSeries | skills/anime-tiktok-generator/scripts/generate_explainer.py:110 | The outro does not depend on the series; for `concept` it is a fixed sentence. |
| VsBattle.TemplateFor | skills/anime-tiktok-generator/scripts/generate_vs.py:46 | Only `standard` exists; every other name raises `KeyError`. |
| VsBattle.Generate | skills/anime-tiktok-generator/scripts/generate_vs.py:48-64 | Type `vs_battle`. Both fighters carry the same series. The sections and outro are the template's, and the duration is the section sum + 8. Title and hook show both names. |
| VsBattle.OnlyStandard | skills/anime-tiktok-generator/scripts/generate_vs.py:46 | The generator succeeds exactly for `standard`. |
| VsBattle.BattleSeconds | skills/anime-tiktok-generator/scripts/generate_vs.py:59 | The standard battle lasts 40 s. |
| VsBattle.SectionOrder | skills/anime-tiktok-generator/scripts/generate_vs.py:15-38 | The sections are Physical Stats, Abilities, Feats, then the verdict. |
| TikTokScript.HookShowsTopic | skills/anime-tiktok-generator/scripts/generate_script.py:55-59 | Every hook template shows the topic. |
| TikTokScript.GenerateScript | skills/anime-tiktok-generator/scripts/generate_script.py:161-182 | Only a malformed template file fails. |
| TikTokScript.ScriptKinds | skills/anime-tiktok-generator/scripts/generate_script.py:171-180 | `commentary` and `recommendation` give their own scripts. Every other style gives the listicle. |
| TikTokScript.AlwaysFortyFive | skills/anime-tiktok-generator/scripts/generate_script.py:107-152 | Every style claims 45 s. |
| TikTokScript.TemplateFileIgnored | skills/anime-tiktok-generator/scripts/generate_script.py:164-167 | A template file that loads has no effect. |
| TikTokScript.ListicleCountsDown | skills/anime-tiktok-generator/scripts/generate_script.py:68-99 | The listicle has five items ranked 5, 4, 3, 2, 1. |
| TikTokScript.ListicleHookAndOutro | skills/anime-tiktok-generator/scripts/generate_script.py:104-106 | The hook is a hook template formatted with `count=5` and shows the topic. The outro is one of the outro templates. |
| TikTokScript.CountHook | skills/anime-tiktok-generator/scripts/generate_script.py:55-59 | The second hook template reads "These 5 <topic> broke the internet". |
| AnimeVideo.Trunc | skills/anime-tiktok-generator/scripts/create_anime_video.py:129 | `int(x)` truncates toward zero. |
| AnimeVideo.FrameCount | skills/anime-tiktok-generator/scripts/create_anime_video.py:129-131 | `range(int(s*30))`: `int(s*30)` frames, none for a negative count. |
| AnimeVideo.WholeSeconds | skills/anime-tiktok-generator/scripts/create_anime_video.py:228-230 | A whole number of seconds fills 30 frames per second. |
| AnimeVideo.ItemFrames | skills/anime-tiktok-generator/scripts/create_anime_video.py:63-65 | The default item time 1.5 s fills 45 frames. |
| AnimeVideo.Expand | skills/anime-tiktok-generator/scripts/create_anime_video.py:129-141 | The frame list has as many entries as the counts add up to, each naming a slide. |
| AnimeVideo.ExpandBlock | skills/anime-tiktok-generator/scripts/create_anime_video.py:129-141 | Slide `k` fills exactly the frames between the sums of the counts before it and up to it. |
| AnimeVideo.HookFrame | skills/anime-tiktok-generator/scripts/create_anime_video.py:82-83 | The hook fills the first frames. |
| AnimeVideo.ContentFrame | skills/anime-tiktok-generator/scripts/create_anime_video.py:129-131 | Content slide `i` follows the hook and the earlier slides. |
| AnimeVideo.OutroFrame | skills/anime-tiktok-generator/scripts/create_anime_video.py:140-141 | The outro fills the last frames. |
| AnimeVideo.RankingVideo | skills/anime-tiktok-generator/scripts/create_anime_video.py:61-174 | Items + 2 images. 60 hook frames, `int(tpi*30)` per item (default 1.5 s), 90 outro frames. Card `i` has a missing rank defaulting to `len(items) - i`. |
| AnimeVideo.RankingFrameAt | skills/anime-tiktok-generator/scripts/create_anime_video.py:81-131 | Item `i` is on screen from frame `60 + i*each` for `each` frames. |
| AnimeVideo.SectionCounts | skills/anime-tiktok-generator/scripts/create_anime_video.py:202 | `int(duration*30)` per section, with the fallback for a missing duration. This is an element-wise map; what it means for the video's length is stated by `AnimePipeline.ExplainerSectionFrames` and `AnimePipeline.VsSectionFrames`. |
| AnimeVideo.VsVideo | skills/anime-tiktok-generator/scripts/create_anime_video.py:176-271 | Sections + 2 images: 90 hook frames, each section's frames (default 8 s), 150 outro frames. |
| AnimeVideo.ExplainerVideo | skills/anime-tiktok-generator/scripts/create_anime_video.py:273-370 | Sections + 2 images: 90 hook frames, each section's frames (default 7 s), 150 outro frames. |
| AnimeVideo.Renumber | skills/anime-tiktok-generator/scripts/create_anime_video.py:147-152 | The `i`-th copy shows the `i`-th scheduled slide. |
| AnimeVideo.RenumberedNames | skills/anime-tiktok-generator/scripts/create_anime_video.py:147-152 | Names `frame_{i:05d}` are distinct and encode their index. Below 100000 frames they all have 15 characters. |
| AnimeVideo.CreateVideo | skills/anime-tiktok-generator/scripts/create_anime_video.py:392-404 | Exit 0 exactly when a known type rendered successfully; otherwise 1. |
| AnimeVideo.Dispatch | skills/anime-tiktok-generator/scripts/create_anime_video.py:392-402 | A missing type renders a ranking. The three known types render their own videos. An unknown type exits 1 without rendering. |
| AnimePipeline.SectionsData | skills/anime-tiktok-generator/scripts/generate_explainer.py:109 | The explainer's (and likewise the VS script's, `generate_vs.py` line 57) `sections` as JSON: one per section, in order, each with its name and duration. This is an element-wise map; its effect on the rendered length is stated by `AnimePipeline.ExplainerVideoLength` and `AnimePipeline.VsVideoLength`. |
| AnimePipeline.ExplainerSectionFrames | skills/anime-tiktok-generator/scripts/create_anime_video.py:327-329 | Whole-second sections fill 30 frames per declared second. |
| AnimePipeline.VsSectionFrames | skills/anime-tiktok-generator/scripts/create_anime_video.py:228-230 | Whole-second sections fill 30 frames per declared second. |
| AnimePipeline.RankingFrames | skills/anime-tiktok-generator/scripts/create_anime_video.py:63-141 | A generated ranking renders to `150 + 45 * items` frames. |
| AnimePipeline.RankingVideoLength | skills/anime-tiktok-generator/scripts/generate_ranking.py:85 | For `0 <= count <= 10` the video is exactly as long as the script's `total_duration`. |
| AnimePipeline.LongRankingVideoShort | skills/anime-tiktok-generator/scripts/generate_ranking.py:71-85 | For `count=15` the video has 600 frames against a declared 825. |
| AnimePipeline.RankingCardNumber | skills/anime-tiktok-generator/scripts/create_anime_video.py:88 | Card `i` shows the rank `count - i` the generator assigned. |
| AnimePipeline.ExplainerVideoLength | skills/anime-tiktok-generator/scripts/generate_explainer.py:111 | Every explainer renders to exactly its declared length. |
| AnimePipeline.VsVideoLength | skills/anime-tiktok-generator/scripts/generate_vs.py:59 | The standard battle renders to 1200 frames, its declared 40 s. |
| AnimePipeline.GenericScriptsRejected | skills/anime-tiktok-generator/scripts/create_anime_video.py:400-404 | The generic scripts' types are unknown to the video maker, which exits 1. |
| Accordion.Toggle | hvac-template/src/App.jsx:459 | A click flips the clicked item and leaves every other item closed. |
| Accordion.ToggleTwice | handyman-template/src/App.jsx:428 | A second click on an item restores the state if the item was open, and otherwise closes everything. |
| Accordion.OnlyLastClickedOpen | locksmith-template/src/App.jsx:418 | After any clicks, only the item clicked last can be open. |
| Accordion.LastClickOpens | hvac-template/src/App.jsx:459 | The last click opens its item unless that item was already open before it. |
| Handyman.Next | handyman-template/src/App.jsx:93 | The right arrow maps the last index to 0 and `i` to `i+1`, which is addition modulo `n`, staying in range. |
| Handyman.Prev | handyman-template/src/App.jsx:87 | The left arrow maps 0 to the last index and `i` to `i-1`, which is subtraction modulo `n`, staying in range. |
| Handyman.ArrowsInverse | handyman-template/src/App.jsx:87-93 | The arrows undo each other. |
| Handyman.ForwardIsModular | handyman-template/src/App.jsx:93 | `k` right-arrow presses move `k` slides modulo `n`. |
| Handyman.FullTurn | handyman-template/src/App.jsx:93 | `n` presses return to the start. |
| Handyman.OffsetInjective | handyman-template/src/App.jsx:62 | The track offset `active*100` tells the slides apart. |
| Handyman.RunInRange | handyman-template/src/App.jsx:49-93 | From slide 0, any clicks keep the slide in range and the offset within the track. After a dot click the slide is that dot. |
| Handyman.GalleryCycles | handyman-template/src/App.jsx:51-55 | Three presses bring the three-slide gallery back. |
| Handyman.ActiveService | handyman-template/src/App.jsx:345 | The active service is the last clicked, or the starting one. |
| Handyman.ShownService | handyman-template/src/App.jsx:354-369 | The detail shows `services[activeService]`: "Repairs" before any click, otherwise the last clicked service. |
| Hvac.Step | hvac-template/src/App.jsx:146-150 | One tick moves one unit closer, or stays at the target, and never passes the target. |
| Hvac.TicksClosedForm | hvac-template/src/App.jsx:144-150 | After `k` ticks the value has moved `k` units toward the target, and stays there once it arrives. |
| Hvac.ReachesTarget | hvac-template/src/App.jsx:146-150 | The target is reached exactly after `|v - target|` ticks, with no overshoot. |
| Hvac.FromStart | hvac-template/src/App.jsx:141-144 | From 30: 45 ticks reach summer's 75, and 15 reach winter's 45. |
| Hvac.BadgeFor | hvac-template/src/App.jsx:433-435 | Orange exactly for ≥ 23, blue exactly for ≤ 20, green exactly in between. |
| Hvac.PortfolioBadges | hvac-template/src/App.jsx:433-435 | The six projects show green, orange, blue, orange, green, green. |
| Hvac.ViewOf | hvac-template/src/App.jsx:69-162 | Each selection is summer's exactly in summer: the label 24°C, the first service Air Conditioning, the summer checklist and the target 75. |
| Hvac.SeasonsDiffer | hvac-template/src/App.jsx:93-162 | The seasons differ in label, first service, checklist and target, and share the rest of the services. |
| Locksmith.Tick | locksmith-template/src/App.jsx:99-102 | A tick never goes below 5, keeps `[5, 15]`, and gives 15 exactly after a value ≤ 5 (or 16). |
| Locksmith.TicksClosedForm | locksmith-template/src/App.jsx:99-102 | From a value in range, after `k` ticks the value is `15 - (15 - v + k) mod 11`. |
| Locksmith.CounterCycle | locksmith-template/src/App.jsx:95-102 | From 15: 15, 14, …, 5, 15, with period exactly 11, always in `[5, 15]`. |
| Locksmith.Progress | locksmith-template/src/App.jsx:31-33 | `min(scrollY/500, 1)`: never above 1, exactly 1 from 500 px, and non-negative for a non-negative scroll. |
| Locksmith.LockedBelowHalfway | locksmith-template/src/App.jsx:33-35 | Locked exactly while `scrollY < 250`. |
| Locksmith.InitialStateAtTop | locksmith-template/src/App.jsx:26-27 | The initial state (locked, 0) is what a scroll to the top gives. |
| Locksmith.Caption | locksmith-template/src/App.jsx:87 | "Scroll to unlock" exactly when locked. |
| Locksmith.RingDash | locksmith-template/src/App.jsx:81 | The ring's dash stays within the 283-long circle. |
| Locksmith.RingAndLock | locksmith-template/src/App.jsx:33-81 | The ring is full exactly from 500 px, and at least half full exactly when unlocked. |
| Locksmith.ChevronFor | locksmith-template/src/App.jsx:422 | The up chevron shows exactly when the item is open. |
| Locksmith.ChevronAfterClick | locksmith-template/src/App.jsx:418-422 | After a click, only the clicked item can show the up chevron, and it does exactly when its answer opened. |

## Left out

- File, network and process I/O. This covers the webhook's file write and git push, the notifier's HTTP call,
  the dashboard's fetches and `localStorage`, the scraper's HTTP and CSV, the reminders command, and ffmpeg. Each
  becomes a parameter or an oracle map.
- Time and scheduling: `Date.now()`, `toLocaleString`, `datetime.now()`, `setInterval`/`setTimeout`. "Now" and
  the rendered time are parameters, and the card's 500 ms delay is a separate step.
- Races between the webhook's writes and the dashboard's poll. The relay has no concurrency control.
- Issuer.Submit: the five `Date.now()` readings of `handleSendMessage` (task id, user message, stored task,
  payload, card) are one `now`; the source's readings can differ by a millisecond or more.
- Issuer.Preview: counts Unicode scalar values where JavaScript's `length` and `substring` count UTF-16 code
  units, so it differs for requests with characters outside the Basic Multilingual Plane.
- Python's `\d`, `str.isdigit` and `str.lower` beyond ASCII. Only ASCII digits and letters are modelled.
- The scraper's DOM traversal. `list(set(...))` order is unspecified in Python, and
  `TicketDetails.Distinct` keeps first occurrences.
- TicketDetails.FetchDetails: which of more than three VIP names are kept, and in what order, depends on Python's
  set iteration. Only their number, distinctness and origin are stated. Prices follow `TicketDetails.Distinct`'s
  first-occurrence order.
- Webhook.Handle: of the ways `message.chat.id` can fail, only a missing chat or id is modelled (as the 500 the
  platform returns for an uncaught exception). A chat id that is not a number is not modelled.
- Recipe.ToShoppingList: the sample recipe's count of 12 ingredients is not proved. The filter and the
  per-line lemmas cover the lines it contains.
- Ranking.Generate: `template['items'][:count]` copies only the list, so setting `item['rank']` rewrites the
  dicts of the shared templates. The model treats the templates as immutable, which is what a single call per
  process observes.
- Random choices in the generic script generator are index parameters bounded by the list length.
- Python floats are reals. `int()` is truncation toward zero, with no binary rounding.
  AnimeVideo.FrameCount: does not model floating-point error in `seconds * 30`.
- Template formatting works on templates already split into literal text and `{name}` fields; the parsing of
  format strings is not modelled.
- The generators' constant `visual_style`, `effects` and `structure` blocks. JSON `null` values are treated as
  missing keys.
- PIL drawing, fonts, colours and media-file handling in the video maker. Only the frame schedule,
  renumbering and dispatch are modelled.
- Rendering, styling, icons and animation timing in the three site templates. Only their state transitions
  are modelled.
- The rest of the repository is not part of this model:
  - `sim_wickgun_sim.py`: network client, data frames, floating-point profit logic.
  - `analyze_video.py`, `create_video.py`, `video_recipe.py` and `download_tiktok.py`: media tools and subprocess
    wrappers.
  - The scraper's debugging and probe scripts: network only, with no assertions.
  - The electrician and plumber sites: presentational. The electrician page's one computation is a floating-point
    rounding.
- Locksmith.Progress: the scroll position is a real, and the browser's own rounding of `scrollY` is not modelled.

## Findings

| source | as written | input that shows it | evidently intended | confidence | as-written member | corrected member |
|---|---|---|---|---|---|---|
| skills/ticket-scraper/scripts/ticket_scraper.py:103 | The single-amount alternative comes first, so it always matches before the range alternative can. | `"$50 - $100"` gives `"$50"` and `"$100"` | The range alternative, listed for exactly this text, yields `"$50 - $100"` whole. | medium, not executed | TicketDetails.FetchSplitsRange | TicketDetails.CorrectedFetchKeepsRange |
