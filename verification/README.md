# Storefront cart and agent task board, in Dafny

This project models the two pieces of state logic in a consultant's marketing site:

- **The cart of the storefront** (`Store.tsx`). The cart is an ordered list of cart lines, each a product plus a quantity. `addToCart` either gives an existing line one more copy or appends a new line with quantity 1, and always opens the cart panel. `removeFromCart` filters the line out by product id. `cartCount` and `cartTotal` are folds over the list. The panel's open flag is flipped by the cart button and cleared by the close button and the backdrop. The checkout anchor points at the hosted checkout page in a new tab only when the cart is non-empty.
- **The agent task board** (`components/AIAgents.tsx`). There are three fixed tasks, each with a status (IDLE, THINKING, GENERATING, COMPLETED, ERROR) and an optional result. `runAgent` ignores a task that the calling closure's list shows as THINKING or GENERATING. Otherwise it writes THINKING, then GENERATING, then either COMPLETED with the generated text or ERROR with the earlier result left in place. Every write rewrites only the task with the matching id. The view derives the button's enabled state, its caption and whether the result is shown from the status and the result.

Files:

- `optional.dfy`: module `Optional`, the `Option` type used for JavaScript values that may be `null` or `undefined`.
- `cart.dfy`: module `Cart`. It holds the datatypes `Product`, `CartItem` and `Link`, and pure functions for the updaters (`Added`, `Removed`), the folds (`CountFrom`, `TotalFrom`) and the checkout anchor. Class `Store` holds the two state cells, `cart` and `isCartOpen`. The lemmas cover the cart invariant, the totals and runs of adds.
- `agents.dfy`: module `AIAgents`. It holds the datatypes `Task`, `Status`, `Outcome` and `Patch`, and the pure update of the task list (`UpdateTask`, the source's `prev.map(...)`). `RunWrites` is the sequence of values a run writes to the `tasks` cell, `RunRequest` is the prompt sent to the generation client, and `Settled` is the final list. Class `Board` holds the `tasks` cell, and its method `RunAgent` performs the writes one after another.

Modelling choices:

- Prices and quantities are mathematical integers.
- The remote generation call is an `Outcome` parameter: `Success(text)` or `Failure`. `RunAgent` returns the prompt it would send, or `None` when it makes no call.
- `Array.prototype.map` is a sequence comprehension. `find` and `filter` are recursions from the front. `reduce` is an accumulator recursion (`CountFrom`, `TotalFrom`), proved equal to the plain sums `Quantities` and `Value`.
- `addToCart` builds the incremented line from the line already in the cart (`{ ...item, quantity: item.quantity + 1 }`), not from the product passed in. So an add raises `cartTotal` by the price stored in that line (`TotalAfterAdd`). This equals the product's own price when the cart agrees with the catalogue (`TotalAfterAddCatalogue`).
- Both lookups in `runAgent` (components/AIAgents.tsx:41 and :46) read the task list that the calling closure was rendered with. The writes update whatever list the state cell holds at that moment. `RunWritesFrom(view, board, ...)` models exactly this: the guard and the lookup read `view`, and the writes start from `board`.
  - A button click runs the closure of the latest render. After each write the board re-renders, so `view` is the current list. `RunWrites`, `Settled` and `Board.RunAgent` model this case.
  - The automatic run at components/AIAgents.tsx:69-74 has an empty dependency list. Its timer therefore calls the closure of the first render, whose list is the mount-time one, where task1 is IDLE.
- When no task has the id, the THINKING write still happens, but it changes nothing (`RunUnknownId`).
- A task's result is never cleared. A task can therefore be THINKING or ERROR while still holding an earlier result. A rerun of a COMPLETED task shows the earlier text again while GENERATING (`RerunKeepsEarlierResult`). The model follows the code here. It does not follow the stricter rule "a result is present only while GENERATING or COMPLETED".
- `ResultShown` uses JavaScript truthiness for the result, so an empty string is not shown.
- The three prompt texts are the parameter `Prompts` of the board. Only their identity matters to the logic.

## Model

| member | source | states |
|---|---|---|
| `Cart.FindItem` | Store.tsx:20 | the lookup finds a line exactly when some line has the id, and the line it returns is in the cart and has that id |
| `Cart.FindAt` | Store.tsx:20 | in a cart with unique ids, looking up a line's id returns that very line |
| `Cart.Incremented` | Store.tsx:22 | no contract of its own; `IncrementAt` proves that with unique ids it raises exactly the matching line's quantity by one and keeps every other line |
| `Cart.Added` | Store.tsx:19-25 | no contract of its own; `AddExisting` and `AddNew` give its two branches, `AddPreservesWellFormed` the invariant it keeps, `QuantityAfterAdd` its effect per id, and `CountAfterAdd`/`TotalAfterAdd` its effect on the totals |
| `Cart.IncrementAt` | Store.tsx:22 | with unique ids, the increment map changes only the quantity of the one matching line, by one |
| `Cart.AddExisting` | Store.tsx:20-22 | adding a product that already has a line raises that line's quantity by exactly 1; length, order and all other lines are unchanged |
| `Cart.AddNew` | Store.tsx:24 | adding a product with no line appends one line holding the product with quantity 1 at the end |
| `Cart.AddPreservesWellFormed` | Store.tsx:18-25 | after an add there is still at most one line per product id, and every quantity is still at least 1 |
| `Cart.Removed` | Store.tsx:30 | the filter never lengthens the cart and leaves no line with the id |
| `Cart.RemovedMembers` | Store.tsx:30 | a line survives the filter exactly when it was in the cart and has another id |
| `Cart.RemoveAbsent` | Store.tsx:30 | removing an id that no line has leaves the cart unchanged |
| `Cart.RemoveAt` | Store.tsx:30 | with unique ids, removing a line's id drops exactly that line and keeps the others in their original order |
| `Cart.RemovePreservesUnique` | Store.tsx:30 | the filter keeps ids unique |
| `Cart.RemovePreservesWellFormed` | Store.tsx:30 | after a remove there is still at most one line per id, and every quantity is still at least 1 |
| `Cart.RemoveIdempotent` | Store.tsx:30 | removing the same id twice gives the same cart as removing it once |
| `Cart.RemoveFromEmpty` | Store.tsx:30 | removing from the empty cart leaves it empty |
| `Cart.CountFrom` | Store.tsx:34 | the `reduce` behind `cartCount`, started at `sum`, yields `sum` plus the sum of all quantities |
| `Cart.TotalFrom` | Store.tsx:33 | the `reduce` behind `cartTotal`, started at `sum`, yields `sum` plus the sum of price times quantity over all lines |
| `Cart.CartCount` | Store.tsx:34 | no contract of its own; it is the fold seeded with 0, which `CountFrom` proves equal to the sum of the quantities; `CountAfterAdd` and `TotalsAfterRemove` give its change under add and remove |
| `Cart.CartTotal` | Store.tsx:33 | no contract of its own; it is the fold seeded with 0, which `TotalFrom` proves equal to the sum of price times quantity; `TotalAfterAdd` and `TotalsAfterRemove` give its change under add and remove |
| `Cart.CountAfterAdd` | Store.tsx:20-34 | with unique ids, every add raises `cartCount` by exactly 1 |
| `Cart.TotalAfterAdd` | Store.tsx:20-33 | with unique ids, an add raises `cartTotal` by the price in the existing line for that id, or by the product's price when there is no such line |
| `Cart.TotalAfterAddCatalogue` | Store.tsx:20-33 | when the cart's line for the id holds the product itself, an add raises `cartTotal` by the product's price |
| `Cart.TotalsAfterRemove` | Store.tsx:30-34 | removing a line lowers `cartCount` by its quantity and `cartTotal` by its price times its quantity |
| `Cart.QuantityAfterAdd` | Store.tsx:18-25 | an add raises the quantity held of the added id by 1 and leaves every other id's quantity unchanged |
| `Cart.AddAllTally` | Store.tsx:18-25 | after any run of adds the cart invariant still holds, and each id's quantity has grown by the number of times it was added |
| `Cart.AddAllFromEmpty` | Store.tsx:18-25 | from the empty cart, a run of adds leaves a line for an id exactly when that id was added, with quantity equal to the number of times it was added |
| `Cart.AddRepeatedFrom` | Store.tsx:20-22 | adding the product of a one-line cart `n` more times raises that line's quantity by `n` and adds no line |
| `Cart.AddRepeated` | Store.tsx:20-24 | adding one product `n >= 1` times to the empty cart gives exactly one line, with quantity `n` |
| `Cart.ScenarioP1P2P2` | Store.tsx:18-34 | adding p1 (49) once and p2 (39) twice gives 2 lines, `cartCount` 3 and `cartTotal` 127 |
| `Cart.CheckoutLink` | Store.tsx:139-140 | the anchor targets the checkout URL in `_blank` exactly when the cart is non-empty; otherwise it is `#` in `_self` |
| `Cart.CheckoutLiveIffCount` | Store.tsx:55 | for a well-formed cart, the checkout link is live exactly when the badge count is positive |
| `Cart.Store.constructor` | Store.tsx:15-16 | at mount the cart is empty, the panel is closed, and the cart invariant holds |
| `Cart.Store.AddToCart` | Store.tsx:18-27 | the cart becomes the add updater applied to the old cart, the panel is open, the invariant is kept, and `cartCount` rises by 1 |
| `Cart.Store.RemoveFromCart` | Store.tsx:29-31 | the cart becomes the filter applied to the old cart, no line with the id remains, the invariant is kept, and the panel flag is unchanged |
| `Cart.Store.ToggleCart` | Store.tsx:50 | the cart button flips the open flag and leaves the cart unchanged |
| `Cart.Store.CloseCart` | Store.tsx:100 | the close button (and the backdrop at line 154) sets the flag to closed and leaves the cart unchanged |
| `AIAgents.InitialTasks` | components/AIAgents.tsx:12-37 | the board starts with exactly three tasks, task1, task2 and task3, with distinct ids, all IDLE with no result |
| `AIAgents.FindTask` | components/AIAgents.tsx:41 | the lookup finds a task exactly when some task has the id, and the task it returns has that id |
| `AIAgents.FindTaskAt` | components/AIAgents.tsx:41 | with unique ids, looking up a task's id returns that very task |
| `AIAgents.UpdateTask` | components/AIAgents.tsx:44 | each write keeps length and order, changes no task whose id differs, never changes any task's id, name, description or prompt, and keeps ids unique |
| `AIAgents.UpdateAt` | components/AIAgents.tsx:53 | with unique ids, a write replaces exactly the task at that id's position with its patched version |
| `AIAgents.Patched` | components/AIAgents.tsx:44-64 | no contract of its own; the spreads `{ ...t, status }` at lines 44, 53 and 64 and `{ ...t, status: COMPLETED, result }` at 57-61; `UpdateAt` proves each write replaces the one matching task by its patched copy, and `RunSucceeds`/`RunFails` give the fields it sets and keeps |
| `AIAgents.FinalPatch` | components/AIAgents.tsx:57-64 | no contract of its own; the last write of a run, COMPLETED with the text on success (57-61) or ERROR on failure (64), as `RunSucceeds` and `RunFails` state |
| `AIAgents.InFlight` | components/AIAgents.tsx:42 | no contract of its own; the status test shared by the guard at line 42 and the `disabled` expression at line 105, related by `GuardMatchesButton` and `LabelAndButton` |
| `AIAgents.Blocked` | components/AIAgents.tsx:41-42 | no contract of its own; the guard, which `GuardMatchesButton` proves equal to the task's button being disabled on the closure's list, and under which `RunIgnoredWhileInFlight` proves the run writes and requests nothing |
| `AIAgents.GuardMatchesButton` | components/AIAgents.tsx:105 | a task's button is disabled exactly when the guard of `runAgent` (line 42) would ignore that task |
| `AIAgents.RunIgnoredWhileInFlight` | components/AIAgents.tsx:41-42 | a run on a THINKING or GENERATING task writes nothing, calls no generation and leaves the board unchanged |
| `AIAgents.RunUnknownId` | components/AIAgents.tsx:44-47 | a run for an id no task has only writes the unchanged list, calls no generation and leaves every task unchanged |
| `AIAgents.RunWritesFrom` | components/AIAgents.tsx:39-66 | no contract of its own; the writes of `runAgent` when the closure's list and the cell's list differ, characterised for the timer's run by `AutoRunDuplicatesRequest` |
| `AIAgents.RunWrites` | components/AIAgents.tsx:39-66 | no contract of its own; the writes of a run whose closure holds the current list, given write by write by `RunTrace`, and empty under the guard by `RunIgnoredWhileInFlight` |
| `AIAgents.RunRequest` | components/AIAgents.tsx:41-55 | no contract of its own; the prompt passed to the generation client, which `RunTrace` proves is the task's prompt when the guard passes and `RunIgnoredWhileInFlight` proves absent when it refuses |
| `AIAgents.Settled` | components/AIAgents.tsx:39-66 | no contract of its own; the list after the run, which `RunSucceeds` and `RunFails` characterise (only the task with the id changes, ending COMPLETED with the text or ERROR with its earlier result) |
| `AIAgents.RunTrace` | components/AIAgents.tsx:44-64 | a run on a task not in flight makes three writes that change only that task: THINKING, then GENERATING, then the final patch; it sends that task's prompt |
| `AIAgents.RunSucceeds` | components/AIAgents.tsx:55-61 | after a successful generation the task is COMPLETED with the returned text as its result, and nothing else has changed |
| `AIAgents.RunFails` | components/AIAgents.tsx:63-64 | after a failed generation the task is ERROR with its result as before the run, and nothing else has changed |
| `AIAgents.SecondRunRefused` | components/AIAgents.tsx:40-42 | a second run of the same task started while the first is suspended, at either point, writes nothing and makes no second generation call |
| `AIAgents.SettledCanRerun` | components/AIAgents.tsx:42 | a finished run leaves the task COMPLETED or ERROR, which the guard lets through, and a rerun sends the same prompt |
| `AIAgents.RerunKeepsEarlierResult` | components/AIAgents.tsx:44-64 | a failing rerun of a COMPLETED task keeps the earlier text in every write; it is hidden while THINKING, shown while GENERATING, and hidden on ERROR |
| `AIAgents.ButtonLabel` | components/AIAgents.tsx:112 | the caption is "Initialize" exactly for IDLE, "Rerun" exactly for COMPLETED and "Busy" exactly for the other statuses |
| `AIAgents.LabelAndButton` | components/AIAgents.tsx:105-112 | a disabled button always reads "Busy"; among enabled buttons only ERROR's reads "Busy" |
| `AIAgents.ResultShown` | components/AIAgents.tsx:138 | the result is rendered exactly when the status is GENERATING or COMPLETED and the result is present and non-empty |
| `AIAgents.CompletedResultShown` | components/AIAgents.tsx:55-61 | after a successful run with non-empty text, that text is rendered |
| `AIAgents.AutoRunDuplicatesRequest` | components/AIAgents.tsx:39-74 | when a clicked run of task1 is still THINKING or GENERATING, the timer's run reads the mount-time list and passes its guard. It writes THINKING and GENERATING over the in-flight task and sends the book-outline prompt a second time, where a guard reading the current list would refuse |
| `AIAgents.AutoRunFirstTask` | components/AIAgents.tsx:69-74 | the automatic run of task1 on the initial board passes the guard, sends the book-outline prompt, and ends COMPLETED on success or ERROR on failure |
| `AIAgents.Board.constructor` | components/AIAgents.tsx:12-37 | at mount the board holds the three initial tasks |
| `AIAgents.Board.RunAgent` | components/AIAgents.tsx:39-66 | for a run whose closure was rendered with the current list (a button click), the method's ghost record of writes, its generation request and the final board equal `RunWrites`, `RunRequest` and `Settled` of the old board, and ids stay unique |

## Left out

- Markup, styling, icons and the static sections of both components are not modelled. They render state and do not change it.
- The content generation client (services/geminiService.ts) is not part of this model. Its remote call, its canned demo replies and its "No content generated." fallback appear only as the `Outcome` a run receives. So the promise that the offline client always returns a non-empty string is not modelled.
- Timers are not modelled: the 1200 ms delay before GENERATING, the 1500 ms delay before the automatic run of task1, and the client's simulated latency. `AutoRunFirstTask` covers the automatic run itself, started on the initial board.
- Interleaving of overlapping runs is not modelled. A run's writes are taken one after another, and a second run is considered only at one of the first run's suspension points.
- SecondRunRefused: covers only a second run started from a button rendered after the first run's THINKING write. The automatic run's guard always sees the mount-time IDLE task and is never refused (`AutoRunDuplicatesRequest`).
- `Board.RunAgent` models only runs whose closure holds the current list. The timer's run, which holds the mount-time list, is modelled by `RunWritesFrom` and `AutoRunDuplicatesRequest`.
- JavaScript `number` arithmetic is not modelled: prices and quantities are unbounded integers, so floating-point rounding of `cartTotal` is absent.
- The catalogue and the prompt texts (constants.ts) are data, not logic. Only products p1 and p2 appear, as the concrete products of the scenario lemma `ScenarioP1P2P2`. The prompt texts are the `Prompts` parameter.
- Markdown rendering of results (ReactMarkdown), the DOM mount and its fallback (index.tsx) and the build configuration (vite.config.ts) are not part of this model.

## Findings

| source | as written | input that shows it | evidently intended | confidence | as-written member | corrected member |
|---|---|---|---|---|---|---|
| components/AIAgents.tsx:39-74 | the guard at line 42 reads the `tasks` captured by the calling closure; the timer of the mount effect holds the first render's closure, whose task1 is always IDLE | the user clicks Initialize on task1 within 1500 ms of mount; when the timer fires, task1 is THINKING or GENERATING | the comment at line 40 says the guard is there to avoid duplicate requests, so the automatic run should be refused while task1 is in flight | medium, not executed | `AIAgents.AutoRunDuplicatesRequest` | `AIAgents.SecondRunRefused` |
