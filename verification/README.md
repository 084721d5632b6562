# Balii SleepWear: a verified model of its document, configuration and order logic

The project models four parts of the repository and proves what they are for.

* **The document converters** in `scripts/`: the Markdown block parser, the inline formatter, table
  normalisation and rendering, column widths, and the two programs that dispatch blocks into a document.
  A document is the sequence of items added to it.
* **Environment files**: the line grammar shared by three programs, the streaming loader of the front end and
  the parse-then-merge loader of a script, and the validator with its strict and thesis-demo profiles.
* **The order service**: checkout with stock reservation and vouchers, payment results, status changes,
  returns, receipt of goods, refunds by the provider and by hand, and stock corrections by staff. The state is
  the tables that these transactions change; a run is any sequence of transactions.

Every part has a specification as functions (`Parse`, `Runs`, `Plan`, `EnvOf`, `Problems`, `Execute`, ...). Where
the source works step by step, a method follows its loops and branches and is proved to compute the
specification; the theorems are about the specification. What a specification function decides is stated a second
time, without that function: by the characters of lines and values, by the cells of tables, and by the rows of the
order service and the choices of its callers.

| files | content |
|---|---|
| `Basics`, `Trimming`, `PyText` | options, trimming, line splitting, character classes |
| `MarkdownBlocks`, `BlockTheorems`, `BlockRoundTrip`, `BlockLayout` | the block parser: conservation, composition, round trip, layout |
| `BlockKinds` | which lines are which, by their characters |
| `InlineRuns`, `InlineTheorems` | inline markup: text accounting, round trip |
| `Tables`, `Rounding`, `Widths`, `WidthLimits`, `PlanRules` | table cells and column widths, also from the cells alone |
| `Rendering`, `RenderTheorems` | the two converters |
| `RenderShows` | what a document shows of the lines of its file |
| `EnvFile`, `EnvNotation`, `EnvLoaders` | environment files: the notation and the loaders |
| `EnvValidator`, `ValidatorTheorems`, `ValidatorRules` | the validator, and its requirements key by key |
| `Totals`, `ShopState`, `ShopMoney`, `ShopTransactions` | the order service as functions on its tables |
| `ShopInvariants`, `ShopCheckout`, `ShopReturns` | what each transaction keeps |
| `ShopRuns`, `ShopTheorems` | what holds over every run |
| `ShopVouchers`, `ShopReceipt`, `ShopAnswers` | when transactions are accepted and what they change, in terms of the tables alone |
| `ShopRefunds`, `ShopReturned`, `ShopSettled`, `ShopPaybacks` | refunds over every run: the exact law, quantities, order status, refunds beside the payment |
| `ShopRecords` | totals of orders, refunds asked for, references of transfers, over every run |
| `ShopWitness` | runs from an opening that show the findings |
| `ShopService` | the order service statement by statement, with rollback |

## Findings

* **Gift combos.** `createReturnRequest` refuses a return with a message that products outside the combo are
  not affected (`apps/order-service/src/order-service.service.ts:1131-1133`). The loop above it looks at every
  gift campaign of the order, picked or not, so that a product outside the combo cannot be returned while the
  combo is kept. `GiftRuleIsStricter` gives the exact condition under which rule and message agree,
  `GiftRuleWitness` a run in which they do not.
* **Refunds in parts.** Every return is rounded on its own. What is approved for an order through returns is
  exactly the smaller of what its goods cost and the sum of the rounded shares (`RefundsAreExact`); so the returns
  bring back all that the goods cost if and only if the rounded shares reach it. In runs whose carts send the sum of
  their lines, as the cart service does (`apps/cart-service/src/cart-service.service.ts:112-123`), an order of which
  every line came back in n returns misses at most n/2 hundredths (`WhollyReturned`). An order whose payment was not
  reported as refunded counts as refunded if and only if its returns paid back all that its goods cost, and that is
  more than nothing (`RefundedExactly`). `ThirdsVanish` is a run in which goods that cost one hundredth come back
  one by one for nothing, so that the order stays delivered.
* **Refunds beside the payment.** Payment service and returns each count their own refunds only: the payment service
  adds up the refunds of the payment (`apps/payment-service/src/refund-operations.service.ts:328-339`) and reports it
  as refunded (`apps/payment-service/src/refund-operations.service.ts:470-475`), which is accepted for delivered and
  for refunded orders, whether or not returns were refunded by hand; and returns that are open go on after the report.
  `PaidTwiceIff`: once a report is accepted, money has gone out beside the payment, or goes out in some continuation,
  if and only if one of the returns was refunded by hand before, was waiting for a refund by hand, or was still to be
  reviewed or received with something to refund. `PaidTwiceWitness` and `PaidBeforeWitness` are runs in which the
  whole price goes out twice, by hand after the report and before it. The cap on refunds (`RefundCap`) is about returns
  only.
* **Inline markup.** Unmatched text that is exactly `**`, `***` or a backtick is taken for a span by the
  second step and vanishes. `LossBound` limits the loss to four characters a line, `LossAttained` attains it.
  `NewlineMisread` shows why single lines are required; `InlineTextsAreLines` shows that the converters only pass
  such lines.
* **Column plan.** All columns of every table of n columns get a width if and only if n is at most 60
  (`SixtyIsTheLimit`); `SixtyOneColumns` is a table of 61 columns whose last one gets exactly nothing. The header
  cells fill the page if and only if no row is longer than the header (`UsedWidths`, with a failing table in
  `HeaderTooNarrow`).
* **Loaders.** The two loaders differ exactly where a key that is not set has a first nonempty value other than its
  last one (`LoadersAgree`, with a failing file in `LoadersDiffer`).

## Model

| member | source | states |
|---|---|---|
| PyText.SplitJoin | scripts/markdown_to_docx.py:30 | splitting a written file gives its lines back, for every list of single lines |
| BlockKinds.LinesEnd | scripts/markdown_to_docx.py:30 | each of the ten line ends, and a carriage return with a newline, closes the line before it, whatever it holds |
| BlockKinds.LastLine | scripts/markdown_to_docx.py:30 | the last line needs no end, and a text without characters has no line |
| Trimming.TrimSplits | scripts/markdown_to_docx.py:36 | trimming removes exactly a prefix and a suffix of the class and leaves bare text |
| MarkdownBlocks.TakeRun | scripts/markdown_to_docx.py:64-76 | the loops for tables and lists stop at the first line of another kind and keep the stripped lines |
| MarkdownBlocks.TakeCode | scripts/markdown_to_docx.py:43-50 | the code loop takes the raw lines up to the next fence or the end |
| MarkdownBlocks.ParagraphStops | scripts/markdown_to_docx.py:91-106 | the six reasons to stop, with the one-line lookahead |
| MarkdownBlocks.TakeParagraph | scripts/markdown_to_docx.py:88-109 | the paragraph loop takes the longest run without a reason to stop |
| MarkdownBlocks.ParseTable | scripts/markdown_to_docx.py:59-68 | header, delimiter and all pipe lines after them |
| MarkdownBlocks.ParseOne | scripts/markdown_to_docx.py:34-57 | one pass of the outer loop takes one chunk and moves the cursor past it, never beyond the end |
| MarkdownBlocks.ParseBlocks | scripts/markdown_to_docx.py:29-111 | the cursor program computes the chunk-by-chunk specification for every text, and all loops together move the cursor at most once per line; which lines are of which kind is said by the members of `BlockKinds` below |
| BlockKinds.KindOfLine | scripts/markdown_to_docx.py:18-109 | what a line is on its own, by its first characters after white space: one to six hashes, a list marker or digits with a dot, each before white space; three backticks; anything else |
| BlockKinds.BulletAlone | scripts/markdown_to_docx.py:70-77 | `-`, `*` or `+`, white space and a text: a bullet list |
| BlockKinds.NumberAlone | scripts/markdown_to_docx.py:79-86 | digits, a dot, white space and a text: a numbered list |
| BlockKinds.HeadingAlone | scripts/markdown_to_docx.py:54-57 | one to six hashes, white space and a text: a heading |
| BlockKinds.ParagraphAlone | scripts/markdown_to_docx.py:88-109 | a line of none of these forms, pipes included: a paragraph |
| BlockKinds.TableOfTwo | scripts/markdown_to_docx.py:59-68 | two lines are a table if and only if both start with a pipe and the second holds three dashes |
| BlockKinds.BlockForms | scripts/markdown_to_docx.py:34-109 | in every document, the lines of a block have the form of its kind, those of a paragraph none, and no table opens inside a paragraph; with conservation, where each line goes |
| BlockKinds.SampleLines | scripts/markdown_to_docx.py:18-20 | `- x`, `12. x` and `## x` |
| BlockTheorems.Conservation | scripts/markdown_to_docx.py:34-111 | the lines of all blocks are what a one-bit reading (inside or outside a fence) keeps: nothing lost, repeated or moved |
| BlockTheorems.Composition | scripts/markdown_to_docx.py:38-68 | a blank line cuts a document into two that parse on their own if and only if the first does not end inside a fence |
| BlockTheorems.StepCut | scripts/markdown_to_docx.py:59-62 | no lookahead and no inner loop reaches across a blank line, open fences apart |
| BlockTheorems.UnclosedGrows | scripts/markdown_to_docx.py:45-51 | an unclosed fence takes in the separator and what follows |
| BlockRoundTrip.ParseWellFormed | scripts/markdown_to_docx.py:42-109 | every block has the shape of its kind, whatever the text |
| BlockRoundTrip.ParsePrintedBlock | scripts/markdown_to_docx.py:34-109 | each kind of well-formed block, printed, parses to itself and leaves no fence open |
| BlockRoundTrip.ParsePrint | scripts/markdown_to_docx.py:29-111 | every list of well-formed blocks survives printing and parsing |
| BlockRoundTrip.ParsePrintParse | scripts/markdown_to_docx.py:29-111 | parse, print, parse gives what the first parse gave, for every text |
| BlockLayout.Layout | scripts/markdown_to_docx.py:34-109 | blocks occupy disjoint increasing line ranges with only blank lines between, are maximal, and neighbours of one kind are separated |
| BlockLayout.ChunkMaximal | scripts/markdown_to_docx.py:64-108 | the line after a table, list or paragraph could not belong to it |
| BlockLayout.NeighboursDiffer | scripts/markdown_to_docx.py:59-109 | two tables, lists of one kind or paragraphs never touch |
| InlineRuns.MatchIs | scripts/markdown_to_docx.py:160 | a match is a bold or code span closed by the nearest marker on its line |
| InlineRuns.PrintOfTokens | scripts/markdown_to_docx.py:160 | the split loses nothing: its pieces, printed, are the text |
| InlineRuns.AddInlineRuns | scripts/markdown_to_docx.py:159-173 | the loop over the pieces emits the specified runs |
| InlineTheorems.RunsAreTokens | scripts/markdown_to_docx.py:160-173 | on one line, the runs are the matched spans and the unmatched text, misread pieces apart |
| InlineTheorems.LossBound | scripts/markdown_to_docx.py:164-170 | at most one star piece and one backtick piece, so at most four characters, go missing |
| InlineTheorems.Accounting | scripts/markdown_to_docx.py:160-173 | input length is shown text plus markers plus loss; the shown text is the text without markers if and only if nothing is misread |
| InlineTheorems.TokensOfPrint | scripts/markdown_to_docx.py:160-173 | every canonical span list, printed and tokenised, comes back |
| InlineTheorems.LossAttained | scripts/markdown_to_docx.py:164-170 | a line that loses four characters |
| InlineTheorems.NewlineMisread | scripts/markdown_to_docx.py:160-165 | across a newline the two steps disagree |
| Tables.NormalizePrinted | scripts/markdown_to_docx.py:265-267 | a printed row gives its cells back, empty cells included |
| RenderShows.NormalizeIs | scripts/markdown_to_docx.py:265-267 | the cells of any line: what stands between single bars, each cell trimmed, the outer bars and white space taken off |
| Tables.RenderGrid | scripts/markdown_to_docx.py:270-293 | the cell loops fill a rectangle of the width of the header |
| Tables.TableRoundTrip | scripts/markdown_to_docx.py:59-68 | a printed table parses to one block whose grid is the header and the rows, cut or padded |
| Tables.RectangularTable | scripts/markdown_to_docx.py:288-293 | rectangular tables come back unchanged |
| Tables.RenderWideGrid | scripts/create_deep_tech_explainer_docx.py:276-296 | the explainer's cell loops give every row below the header a cell per planned column |
| Tables.NothingCut | scripts/create_deep_tech_explainer_docx.py:276-296 | the explainer cuts no row |
| Tables.WideRoundTrip | scripts/create_deep_tech_explainer_docx.py:276-296 | a printed table comes back whole in the explainer, padded to the longest row |
| Rounding.RoundDivMonotone | scripts/create_deep_tech_explainer_docx.py:246 | rounding half to even keeps order |
| PlanRules.RoundDivIs | scripts/create_deep_tech_explainer_docx.py:246 | the rounded quotient is the one integer within one half of it that is even if two are |
| PlanRules.TieAtWork | scripts/create_deep_tech_explainer_docx.py:246 | weights 9 and 23: a width that rounding halves up would make one larger |
| Widths.WeightIsMaximum | scripts/create_deep_tech_explainer_docx.py:241-244 | a weight is the maximum of the start value and the clamped cell lengths of the column |
| Widths.WeightsOfPermutation | scripts/create_deep_tech_explainer_docx.py:242-244 | the order of the rows does not matter |
| Widths.AddRow | scripts/create_deep_tech_explainer_docx.py:243-244 | one row raises the weights of its columns in place and no other |
| Widths.ComputeWeights | scripts/create_deep_tech_explainer_docx.py:240-244 | the in-place loops compute the weights |
| Widths.WidthPlan | scripts/create_deep_tech_explainer_docx.py:239-248 | the program computes the plan; it raises where the specification has none |
| Widths.PlanSum | scripts/create_deep_tech_explainer_docx.py:246-248 | the widths add up to the total exactly |
| Widths.PlanNear | scripts/create_deep_tech_explainer_docx.py:246-247 | all but the last width within one half of the exact share, the last within (n - 1) / 2 |
| PlanRules.PlanFromCells | scripts/create_deep_tech_explainer_docx.py:239-248 | from the cells: weights of 8 or the longest cell up to 42, every width but the last the rounded part of the total, the last one the rest |
| Widths.PlanPositive | scripts/create_deep_tech_explainer_docx.py:29 | at 9360 every width of at most 60 columns is positive |
| WidthLimits.SixtyIsTheLimit | scripts/create_deep_tech_explainer_docx.py:239-248 | every table of n columns gets positive widths only, if and only if n is at most 60 |
| WidthLimits.SixtyOneColumns | scripts/create_deep_tech_explainer_docx.py:246-247 | a header of 61 cells whose last column gets exactly nothing |
| WidthLimits.HeaderTooNarrow | scripts/create_deep_tech_explainer_docx.py:252-290 | a table whose header fills one half of the page |
| Widths.PlanMonotone | scripts/create_deep_tech_explainer_docx.py:246 | before the last column a heavier one is never narrower |
| Widths.PlanOfTable | scripts/create_deep_tech_explainer_docx.py:239-248 | when there is a plan, its length and sum, and its independence of the row order |
| Widths.UsedWidths | scripts/create_deep_tech_explainer_docx.py:252-290 | the header cells fill the page if and only if no row is longer than the header |
| Widths.RealPlanHolds | scripts/markdown_to_docx.py:298-305 | positive widths in proportion to the weights with the exact sum; the fallback divisor is unreachable |
| PlanRules.RealPlanFromCells | scripts/markdown_to_docx.py:298-305 | from the cells: widths in proportion to the longest cell of each column, counted as 6 at least |
| Widths.ComputeColumnWidths | scripts/markdown_to_docx.py:298-305 | the loop computes such widths, and raises exactly without rows |
| Widths.GridError | scripts/create_thesis_testcase_docx.py:169-172 | rounding every column on its own is off by at most n / 2 in all |
| PlanRules.RoundRealIs | scripts/create_thesis_testcase_docx.py:169-172 | the rounded width is the one integer within one half of the exact one that is even if two are |
| Widths.SetTableGeometry | scripts/create_thesis_testcase_docx.py:163-177 | declared width and grid differ by at most (n + 1) / 2 twips; cells follow their columns |
| Rendering.Document.RenderHeading | scripts/markdown_to_docx.py:221-233 | title or heading, and the title flag |
| Rendering.Document.RenderTable | scripts/markdown_to_docx.py:270-295 | the grid of runs and a blank paragraph |
| Rendering.Document.BuildDocx | scripts/markdown_to_docx.py:308-327 | the dispatch loop emits the specified items for every text and never fails; what the items show of the lines is said by `RenderShows.FileToDocument` |
| Rendering.Document.AddToc | scripts/create_deep_tech_explainer_docx.py:105-118 | title, one entry per heading of level 2, page break |
| Rendering.Document.RenderBlocks | scripts/create_deep_tech_explainer_docx.py:322-351 | the dispatch loop of the explainer, with rows as wide as the planned grid |
| Rendering.Document.Build | scripts/create_deep_tech_explainer_docx.py:354-370 | refuses exactly the texts that do not open with heading and paragraph; the assertion never fails |
| RenderShows.JoinHolds | scripts/markdown_to_docx.py:240 | the text of a paragraph holds every line whole and in order, one space between two of them, and nothing else |
| RenderShows.BlockShown | scripts/markdown_to_docx.py:221-295 | what each kind of block shows, in both converters: paragraphs the joined lines, list items and headings the text after marker and white space, code the line or one space, tables the cells of their lines, padded and cut |
| RenderShows.FileToDocument | scripts/markdown_to_docx.py:308-327 | for every file and both converters, the document shows, block by block, exactly the lines that a one-bit reading of the file keeps; the first top heading is the title |
| RenderShows.ExplainerShown | scripts/create_deep_tech_explainer_docx.py:354-370 | the whole explainer: the cover from the first two blocks, the contents from what is shown with style Heading 2, then the other blocks |
| RenderTheorems.ParsedHeadingsMatch | scripts/create_deep_tech_explainer_docx.py:325-326 | every parsed heading matches the heading pattern |
| RenderTheorems.SimpleHeads | scripts/markdown_to_docx.py:221-233 | every heading is shown once, in order; exactly the first of level 1 is the title |
| RenderTheorems.TocAgrees | scripts/create_deep_tech_explainer_docx.py:105-118 | the contents list exactly the texts later shown as Heading 2, in order |
| RenderTheorems.InlineTextsAreLines | scripts/markdown_to_docx.py:236-251 | only single lines reach the inline formatter |
| RenderTheorems.InlineLoss | scripts/markdown_to_docx.py:236-251 | no paragraph, list item, cell of the explainer or entry of the contents loses more than four characters besides markers |
| RenderTheorems.ParagraphsAgree | scripts/create_deep_tech_explainer_docx.py:337-339 | both converters show the same paragraphs |
| EnvFile.ReadLine | frontend/next.config.ts:14-31 | the steps on one line give its assignment, if any; which one is said by `ParseQuoted` and the members of `EnvNotation` below |
| EnvFile.ParseEnvFile | scripts/validate-production-env.js:76-101 | the loop computes the map of the file |
| EnvFile.EnvOfJoin | scripts/validate-production-env.js:79-98 | parsing two joined files is map override |
| EnvFile.InertLine | scripts/validate-production-env.js:80-89 | comments, blank lines and lines without separator change nothing anywhere |
| EnvFile.ParseQuoted | scripts/validate-production-env.js:91-97 | a double-quoted value comes back with inner quotes and edge spaces |
| EnvFile.EnvOfPrint | scripts/validate-production-env.js:76-101 | printed assignments parse to the map they denote |
| EnvFile.EveryMapHasAFile | scripts/validate-production-env.js:76-101 | every expressible map is the meaning of a file |
| EnvNotation.BareValue | scripts/validate-production-env.js:91-97 | white space, a key, a separator and a value without quotes: the value itself |
| EnvNotation.QuotedValue | scripts/validate-production-env.js:91-97 | a value between quotes of either kind, or one of each: what is between them, as it is |
| EnvNotation.OpenedValue | scripts/validate-production-env.js:92-95 | a quote at the start only goes, the rest stays |
| EnvNotation.ClosedValue | scripts/validate-production-env.js:92-95 | a quote at the end only goes, the rest stays |
| EnvNotation.LoneQuote | scripts/validate-production-env.js:92-95 | one quote alone is an empty value |
| EnvNotation.SampleSettings | scripts/validate-production-env.js:91-97 | a line of the example file, as it stands and with spaces and quotes |
| EnvNotation.EnvOfPrintPlain | scripts/validate-production-env.js:76-101 | round trip: assignments printed without quotes parse to the map they denote |
| EnvNotation.EnvLinesEnd | scripts/validate-production-env.js:79 | a newline, with or without a carriage return, closes a line |
| EnvNotation.SpacesRelated | scripts/validate-production-env.js:80 | what JavaScript trims is what Python strips, but for six characters |
| EnvFile.EnvOfDistinct | scripts/validate-production-env.js:97 | with distinct keys the map holds exactly what the lines assign |
| EnvFile.Reordering | scripts/validate-production-env.js:79-98 | reordering lines with distinct keys changes nothing |
| EnvLoaders.Process.LoadRootEnv | frontend/next.config.ts:5-37 | the streaming loader leaves the specified environment |
| EnvLoaders.Process.LoadLocalEnv | scripts/check-gemini-models.js:32-47 | the merging loader leaves the specified environment, in whatever order it visits the entries |
| EnvLoaders.StreamAt | frontend/next.config.ts:33-35 | a key that is not set gets its first nonempty value |
| EnvLoaders.LoadedValue | frontend/next.config.ts:33-35 | a variable with a value keeps it; an empty or missing one gets the first value of the file with one loader and the last assignment with the other |
| EnvLoaders.LoadersAgree | scripts/check-gemini-models.js:42-46 | the loaders agree if and only if, for every key not set, the first nonempty value is the last value |
| EnvLoaders.LoadersDiffer | scripts/check-gemini-models.js:42-46 | a file that leaves different values with the two loaders |
| EnvLoaders.LoadersAgreeOnDistinct | scripts/check-gemini-models.js:42-46 | they agree on every file without repeated keys |
| EnvLoaders.LoadingTwice | frontend/next.config.ts:33-35 | loading a file twice is loading it once |
| EnvLoaders.SetVariablesSurvive | frontend/next.config.ts:33-35 | a variable that is set is never changed |
| EnvValidator.CheckSecrets | scripts/validate-production-env.js:127-139 | the loop pushes exactly the specified problems and warnings |
| EnvValidator.CheckCommon | scripts/validate-production-env.js:141-221 | the checks for every profile |
| EnvValidator.CheckStrict | scripts/validate-production-env.js:224-283 | the strict production checks |
| EnvValidator.Validate | scripts/validate-production-env.js:123-296 | problems and warnings in the order of the program |
| EnvValidator.ValidateFile | scripts/validate-production-env.js:112-305 | a file is accepted if and only if its map gives rise to no problem |
| ValidatorTheorems.Decision | scripts/validate-production-env.js:114-296 | no problem is reported if and only if the stated requirements hold |
| ValidatorRules.AcceptedIff | scripts/validate-production-env.js:114-296 | no problem is reported if and only if the values meet the requirements, key by key and character by character |
| ValidatorRules.PlaceholderIs | scripts/validate-production-env.js:55-64 | a template value reads like one of seven texts, or starts like an eighth, in either case |
| ValidatorRules.HopsAre | scripts/validate-production-env.js:141-146 | the number of proxies is accepted if and only if it is empty, or zeros and one digit up to five |
| ValidatorRules.WarnedIff | scripts/validate-production-env.js:127-296 | when each of the two warnings is given |
| ValidatorTheorems.StrictIffDemoAndMore | scripts/validate-production-env.js:125-139 | strictly accepted if and only if accepted as demo, with a long database password and, in production, the strict requirements |
| ValidatorTheorems.OnlyForgivenProblems | scripts/validate-production-env.js:223-296 | what is accepted only as demo fails solely on what the demo profile forgives |
| ValidatorTheorems.DemoIsWeaker | scripts/validate-production-env.js:223-296 | switching an accepted environment to the demo profile keeps it accepted |
| ValidatorTheorems.AcceptedFile | scripts/validate-production-env.js:114-139 | in an accepted file the last value of every required key is genuine and every secret long enough |
| ValidatorTheorems.VerdictIgnoresOrder | scripts/validate-production-env.js:76-101 | reordering lines with distinct keys keeps all problems and warnings |
| ShopMoney.HalfUp | apps/order-service/src/order-service.service.ts:2432-2434 | the nearest hundredth, halves up |
| ShopMoney.DiscountIs | apps/order-service/src/order-service.service.ts:2610-2628 | a discount is the value or the rounded part of the amount, within cap and amount; rounding last is rounding first |
| ShopMoney.PercentIs | apps/order-service/src/order-service.service.ts:2610-2616 | a voucher of p per cent takes p of every hundred |
| ShopMoney.DiscountMonotone | apps/order-service/src/order-service.service.ts:2610-2628 | buying more never lowers the discount |
| ShopMoney.Share | apps/order-service/src/order-service.service.ts:2391-2404 | a refund lies between nothing and the price |
| ShopCheckout.ReserveIs | apps/order-service/src/order-service.service.ts:329-350 | reserving raises the reservation of every variant by its total demand, within the stock, and touches nothing else |
| ShopCheckout.ReserveIffFits | apps/order-service/src/order-service.service.ts:329-350 | line-by-line updates succeed if and only if the total demand fits what is free, also with several lines for one variant |
| ShopVouchers.VoucherRefused | apps/order-service/src/order-service.service.ts:2559-2608 | a new checkout is refused for its voucher if and only if that is unknown, switched off, not valid yet or no more, asks for a larger order, or is used up, overall or by the customer |
| ShopVouchers.UsesAreOrders | apps/order-service/src/order-service.service.ts:2595-2608 | the uses of a voucher are the orders that carry it, of all customers or of one |
| ShopVouchers.CheckoutAccepted | apps/order-service/src/order-service.service.ts:297-430 | a new checkout whose voucher is fine fails for lack of goods if and only if some variant is unknown, off sale or asked for in all beyond what is free; it succeeds if and only if there are goods, the key is new and no line is empty |
| ShopVouchers.CheckoutRecords | apps/order-service/src/order-service.service.ts:291-430 | what an accepted checkout writes down: one pending order with its goods on reserve, discount, fee and total, and one more use of the voucher |
| ShopCheckout.CreateKeeps | apps/order-service/src/order-service.service.ts:297-430 | checkout keeps all invariants and the balance of every variant |
| ShopCheckout.EditKeeps | apps/product-service/src/product-variants/product-variants.service.ts:84-120 | a stock correction keeps all invariants and shifts the balance by the correction only |
| ShopAnswers.EditAnswer | apps/product-service/src/product-variants/product-variants.service.ts:84-120 | a correction is accepted if and only if it leaves the reserved goods there; it sets what it names only |
| ShopInvariants.TransitionKeeps | apps/order-service/src/order-service.service.ts:2684-2794 | a transition keeps reservations equal to open orders, and conserves goods |
| ShopInvariants.RowsAlwaysAllow | apps/order-service/src/order-service.service.ts:2743-2784 | the conditional updates of a transition always find their rows |
| ShopInvariants.TransitionSucceeds | apps/order-service/src/order-service.service.ts:2703-2719 | a transition fails exactly when the state may not change so; stock is never found inconsistent |
| ShopInvariants.ReleaseKeeps | apps/order-service/src/order-service.service.ts:2796-2820 | giving a voucher back keeps the counters equal to the uses |
| ShopInvariants.CommitKeeps | apps/order-service/src/order-service.service.ts:607-613 | confirming a pending order always succeeds and keeps all invariants |
| ShopInvariants.CancelKeeps | apps/order-service/src/order-service.service.ts:632-640 | cancelling before shipment always succeeds and keeps all invariants |
| ShopReturns.AskKeeps | apps/order-service/src/order-service.service.ts:1009-1196 | a new return keeps the limits on quantities and leaves one open return per order |
| ShopAnswers.AskAccepted | apps/order-service/src/order-service.service.ts:991-1136 | a return is accepted if and only if it has a picture and is in time, for an own delivered order without open return, with picks of one to a hundred different lines within what is left, and takes gift combos back as a whole |
| ShopAnswers.LeftIs | apps/order-service/src/order-service.service.ts:1063-1084 | while no return of an order is open, what counts as returned is what was accepted back |
| ShopAnswers.AskRecords | apps/order-service/src/order-service.service.ts:1138-1196 | the new return: a row for every pick, in the order of the lines, and the refund asked for their price |
| ShopAnswers.ReviewAnswer | apps/order-service/src/order-service.service.ts:1393-1457 | a review is accepted if and only if the return is pending and a rejection has a note; it sets the status only |
| ShopAnswers.RejectionFrees | apps/order-service/src/order-service.service.ts:1063-1084 | a rejection gives the picked quantities back, to be asked for again |
| ShopReturns.AllocateSums | apps/order-service/src/order-service.service.ts:2406-2430 | item refunds add up to the amount, and none but the last exceeds its share |
| ShopReturns.ReceivedRefunds | apps/order-service/src/order-service.service.ts:1656-1689 | the refunds written to the rows add up to the refund of the return |
| ShopReturns.PaidIsApproved | apps/order-service/src/order-service.service.ts:1623-1637 | while a return is received, all other approved refunds of its order are paid |
| ShopReturns.ReceiveKeeps | apps/order-service/src/order-service.service.ts:1487-1766 | receipt keeps the limits on quantities and money |
| ShopReceipt.ReceiptAccepted | apps/order-service/src/order-service.service.ts:1568-1608 | an approved return is received if and only if its goods are sold and every row is classified exactly once |
| ShopReceipt.ReceiptRestocks | apps/order-service/src/order-service.service.ts:1683-1699 | the stock of a variant rises by exactly what its rows asked for whose choice is to restock, and nothing else about variants changes |
| ShopReceipt.DamagedStaysOut | apps/order-service/src/order-service.service.ts:1683-1699 | with damaged and rejected goods only, the variants do not change |
| ShopReceipt.ReceiptRecords | apps/order-service/src/order-service.service.ts:1662-1681 | every row is recorded with its choice, a rejected one with nothing accepted and no refund, any other in full; other returns stay |
| ShopAnswers.ReceiptAgain | apps/order-service/src/order-service.service.ts:1539-1572 | a receipt sent again changes nothing, but a failed refund is then left to be made by hand |
| ShopReturns.CompleteWaitingKeeps | apps/order-service/src/order-service.service.ts:691-704 | completing waiting returns with the payment keeps the limits on quantities and money |
| ShopRuns.ApplyKeeps | apps/order-service/src/order-service.service.ts:258-2011 | every transaction keeps all invariants, moves orders and returns forward only, and changes balances by corrections alone |
| ShopRuns.RunKeeps | apps/order-service/src/order-service.service.ts:258-2011 | every run of any length and order keeps all invariants, moves forward only, and conserves goods up to corrections |
| ShopTheorems.NoOverselling | apps/order-service/src/order-service.service.ts:329-350 | after any run reservations match the open orders, the stock covers them, and stock is opening plus corrections plus restocked less sold |
| ShopTheorems.VoucherLimits | apps/order-service/src/order-service.service.ts:2583-2608 | after any run the counter is the number of uses, within the limit overall and per customer |
| ShopVouchers.OrdersCameOnTerms | apps/order-service/src/order-service.service.ts:2574-2593 | in any run, every order that carries a voucher was made by a checkout inside the window of the voucher and above its minimum, as they stood at the opening |
| ShopVouchers.RunTerms | apps/order-service/src/order-service.service.ts:2684-2820 | a run changes nothing about vouchers but their counters |
| ShopTheorems.RefundCap | apps/order-service/src/order-service.service.ts:1617-1645 | through returns no order gets back more than its goods cost, and no line goes back more often than bought |
| ShopTheorems.ItemRefundsAddUp | apps/order-service/src/order-service.service.ts:2406-2430 | item refunds add up to the refund at any time after receipt |
| ShopTheorems.CheckoutOnce | apps/order-service/src/order-service.service.ts:263-303 | a checkout key leads to one order for ever; its owner gets it back, others are refused |
| ShopTheorems.ConstraintsHold | libs/database/src/migrations/20260719240000-EnforceInventoryAndRefundEvidence.ts:8-17 | the constraints on stock, open returns and rows never reject a transaction |
| ShopTheorems.ReceiptIsFinal | apps/order-service/src/order-service.service.ts:1539-1566 | goods are restocked once, and a fixed refund stays |
| ShopTheorems.ShippedStaysSold | apps/order-service/src/order-service.service.ts:878-892 | a shipped order is never cancelled by any run |
| ShopTheorems.PaymentAccepted | apps/order-service/src/order-service.service.ts:600-617 | with any requested status, a payment is refused if and only if the order is cancelled or refunded, or pending and asked for another status |
| ShopAnswers.FailedReport | apps/order-service/src/order-service.service.ts:618-641 | a failed payment cancels an order if and only if it is pending and no payment for it is settled; any other one changes nothing |
| ShopAnswers.RefundReport | apps/order-service/src/order-service.service.ts:642-704 | a refunded payment is accepted for cancelled, delivered and refunded orders; it refunds the order, completes its returns that wait for the provider, and changes nothing else |
| ShopAnswers.StatusAnswer | apps/order-service/src/order-service.service.ts:873-935 | staff take an order to a status if and only if it is there already, or the step is one of seven, the latest payment of a confirmed order is on delivery or paid, and none of a cancelled one is settled; with where the goods are then |
| ShopTheorems.PaymentTwice | apps/order-service/src/order-service.service.ts:570-707 | a payment result sent twice has the effect of one |
| ShopTheorems.FirstReportDecides | apps/order-service/src/order-service.service.ts:600-641 | of two contradicting reports on a pending order the first decides, with the statuses the payment service sends or none |
| ShopTheorems.CancelFrees | apps/order-service/src/order-service.service.ts:2743-2784 | cancelling frees exactly what the order took, held or sold |
| ShopTheorems.OrderTakes | apps/order-service/src/order-service.service.ts:329-350 | checkout takes exactly what is ordered, confirming nothing more |
| ShopTheorems.CancelUndoesCheckout | apps/order-service/src/order-service.service.ts:632-640 | a cancelled checkout leaves stock, reservations and vouchers as they were |
| ShopTheorems.GiftRuleIsStricter | apps/order-service/src/order-service.service.ts:1117-1136 | the rule agrees with its message if and only if nothing of an unpicked gift combo is left with the customer |
| ShopTheorems.WholeReturn | apps/order-service/src/order-service.service.ts:1617-1645 | goods worth the whole subtotal, returned at once, bring back exactly what they cost |
| ShopRefunds.RefundsAreExact | apps/order-service/src/order-service.service.ts:1610-1645 | in any run, the refunds approved for an order through returns are exactly the rounded shares of its returns, up to what its goods cost; all of it if and only if the shares reach it |
| ShopRefunds.RefundsAreFair | apps/order-service/src/order-service.service.ts:1610-1645 | in any run, the refunds approved for an order are within n/2 hundredths of the share of the accepted goods, unless they are all that the goods cost |
| ShopReturned.BackIsWorth | apps/order-service/src/order-service.service.ts:1613-1616 | the price of what came back is the worth of the quantities that came back, line by line |
| ShopReturned.BackAtMostSubtotal | apps/order-service/src/order-service.service.ts:1106-1115 | when the subtotal is the sum of the lines, what came back never costs more, and exactly as much once every line came back |
| ShopReturned.RunPriced | apps/cart-service/src/cart-service.service.ts:112-123 | when every cart of a run sends the sum of its lines, so does every order of the run |
| ShopReturned.WhollyReturned | apps/order-service/src/order-service.service.ts:786-804 | in a run whose carts send the sum of their lines, an order all of whose lines came back in n returns is short of n/2 hundredths at most, namely by what the rounded shares are short |
| ShopReturned.RowsAreFair | apps/order-service/src/order-service.service.ts:2406-2430 | in any run whose carts send the sum of their lines, whether or not the refund is limited, every accepted row gets its share up to half a hundredth per accepted row and per earlier return, a rejected row nothing |
| ShopSettled.RefundedExactly | apps/order-service/src/order-service.service.ts:786-832 | in any run, an order with an accepted report that its payment was refunded is refunded; any other one if and only if its returns paid all that its goods cost, and that is something |
| ShopPaybacks.PaysIffOpen | apps/order-service/src/order-service.service.ts:1539-1566 | the returns of a refunded order pay more in some continuation if and only if one of them is open |
| ShopPaybacks.PaysAfterPayback | apps/order-service/src/order-service.service.ts:642-704 | after a refunded payment, the returns pay more in some continuation if and only if the report left one open |
| ShopPaybacks.PaidTwiceIff | apps/order-service/src/order-service.service.ts:642-704 | after a refunded payment, money has gone or can still go out by hand beside it if and only if a return was refunded by hand before, was waiting for that, or was still to be received with something to refund |
| ShopWitness.GiftRuleWitness | apps/order-service/src/order-service.service.ts:1117-1136 | a run in which a scarf cannot be returned because of a combo it is no part of |
| ShopWitness.ThirdsVanish | apps/order-service/src/order-service.service.ts:2391-2404 | a run in which three thirds of an order come back accepted for nothing, and the order stays delivered |
| ShopWitness.PaidTwiceWitness | apps/order-service/src/order-service.service.ts:642-704 | a run in which the price goes out with the payment and again by hand |
| ShopWitness.PaidBeforeWitness | apps/order-service/src/order-service.service.ts:1928-1950 | a run in which the price goes out by hand and the payment is reported as refunded all the same |
| ShopRecords.TotalsAddUp | apps/order-service/src/order-service.service.ts:361-369 | in any run, the total of an order is what its goods cost after the discount and its delivery |
| ShopRecords.NoMoreThanAsked | apps/order-service/src/order-service.service.ts:1138-1155 | in any run, no return is granted more than was asked for when it was made |
| ShopRecords.OneReturnPerTransfer | apps/order-service/src/order-service.service.ts:1891-1905 | in any run, the reference of a transfer settles one return only |
| ShopAnswers.DispatchAnswer | apps/order-service/src/order-service.service.ts:1783-1823 | the answer of the payment service is recorded once, and a completed return stays completed |
| ShopAnswers.RefundAnswer | apps/order-service/src/order-service.service.ts:732-832 | the result of a refund is accepted for completed returns and those that wait for the provider; the status it leads to |
| ShopAnswers.ManualAnswer | apps/order-service/src/order-service.service.ts:1859-2000 | a refund by hand is accepted with a picture, for a completed return, and for one that waits for it with the approved amount and a new reference; what it changes |
| ShopService.OrderService.ReserveLines | apps/order-service/src/order-service.service.ts:329-350 | the loop of conditional updates reserves all or reports failure |
| ShopService.OrderService.UpdateRow | apps/order-service/src/order-service.service.ts:2744-2783 | one conditional update: its condition and its effect |
| ShopService.OrderService.ShiftRows | apps/order-service/src/order-service.service.ts:2721-2784 | the loop over the grouped rows has one outcome in whatever order they come |
| ShopService.OrderService.TransitionInventory | apps/order-service/src/order-service.service.ts:2684-2794 | the transition computes its specification |
| ShopService.OrderService.ReleaseVoucherUsage | apps/order-service/src/order-service.service.ts:2796-2820 | usage deleted and counter lowered |
| ShopService.OrderService.ValidateVoucher | apps/order-service/src/order-service.service.ts:2538-2628 | the checks accept exactly the usable vouchers and give their discount; which vouchers are usable is said by `ShopVouchers.VoucherRefused` |
| ShopService.OrderService.CreateOrder | apps/order-service/src/order-service.service.ts:297-430 | checkout has exactly the specified outcome; a refusal leaves no trace |
| ShopService.OrderService.UpdatePaymentStatus | apps/order-service/src/order-service.service.ts:570-707 | a payment result has exactly the specified outcome; a refusal leaves no trace |
| ShopService.OrderService.CompleteWaitingReturns | apps/order-service/src/order-service.service.ts:691-704 | the update touches exactly the waiting returns of the order |
| ShopService.OrderService.UpdateOrderStatus | apps/order-service/src/order-service.service.ts:848-970 | a status change has exactly the specified outcome; a refusal leaves no trace |
| ShopService.OrderService.CheckAvailable | apps/order-service/src/order-service.service.ts:1106-1115 | the loop accepts if and only if no line is picked beyond what is left |
| ShopService.OrderService.CheckGifts | apps/order-service/src/order-service.service.ts:1117-1136 | the loop over the gift campaigns decides the rule, in whatever order |
| ShopService.OrderService.CreateReturnRequest | apps/order-service/src/order-service.service.ts:1009-1196 | a return request has exactly the specified outcome; a refusal leaves no trace |
| ShopService.OrderService.ReviewReturnRequest | apps/order-service/src/order-service.service.ts:1393-1457 | a review has exactly the specified outcome; a refusal leaves no trace |
| ShopService.OrderService.AllocateItemRefunds | apps/order-service/src/order-service.service.ts:2406-2430 | the loop allocates like the specification |
| ShopService.OrderService.RefundAmount | apps/order-service/src/order-service.service.ts:1610-1645 | the sums and limits give the specified refund |
| ShopService.OrderService.UpdateRows | apps/order-service/src/order-service.service.ts:1646-1699 | the loop writes every row and restocks exactly the accepted goods |
| ShopService.OrderService.ReceiveReturnRequest | apps/order-service/src/order-service.service.ts:1487-1781 | a receipt has exactly the specified outcome; a refusal leaves no trace; which goods go back on sale is said by `ShopReceipt.ReceiptRestocks` |
| ShopService.OrderService.RecordDispatch | apps/order-service/src/order-service.service.ts:1783-1823 | the answer of the payment service is recorded as specified, and never reopens a completed return |
| ShopService.OrderService.UpdateReturnRefundResult | apps/order-service/src/order-service.service.ts:732-832 | a refund result has exactly the specified outcome; a refusal leaves no trace |
| ShopService.OrderService.CompleteManualReturnRefund | apps/order-service/src/order-service.service.ts:1859-2000 | a refund confirmed by hand has exactly the specified outcome; a refusal leaves no trace |

## Left out

- Document formatting: fonts, shading, margins, numbering, cover lay-out, headers and footers, and the page
  break before two named headings (`scripts/create_deep_tech_explainer_docx.py:332-336`); a document is its items.
- File access, command lines and console output; a file is its text, or absent.
- The wording of problems and messages; every problem is a constructor with its key.
- Doubles: shares of widths are exact quotients and `round` goes to the nearest even number; the centimetre and
  inch computations are over real numbers.
- Money is in whole hundredths, and `roundMoney` rounds halves up exactly; binary fractions and the added epsilon
  are not modelled. Percentages have at most two decimals, as their column does.
- Regular expressions are written out for texts without line breaks, which is all that reaches them, except in
  the inline formatter, where newlines are modelled.
- `process.env` is a map beside the names that objects inherit, without the case folding of Windows; empty keys are
  treated like others. The parsed map of a file keeps an entry for `__proto__`, where JavaScript drops it.
- `SetTableGeometry` covers rows with at most as many cells as widths; for longer rows the program stops with an index error.
- The cart, the shipping address, the order code, and the choice of the voucher by its code: the lines, the subtotal,
  the voucher and the fee for delivery of a checkout are parameters.
- References of transfers are taken trimmed and in lower case, as the service compares them; letters outside ASCII and
  the note of the transfer are not modelled.
- Payments live in the payment service: their rows, whether one is settled, and whether the provider can refund are
  parameters. Cancelling pending payments, status logs, notifications, images and notes are not modelled.
- Time: the hour of a checkout and whether a return is within its window are parameters.
- Concurrency inside a transaction: rows are locked (`FOR UPDATE`) or changed by conditional updates, so that
  transactions are taken as atomic; what interleaves is transactions, in any order.
- ShopMoney.HalfUp: takes exact hundredths, where the source multiplies a binary fraction and adds the machine epsilon,
  so that ties of fractions that binary numbers cannot hold are idealised.
- The explainer's table follows python-docx from version 1.1.2 on, where a new row has a cell per grid column and a row
  lists its own cells.
- The inventory state `returned`, which `receiveReturnRequest` accepts but nothing in the service produces.
- Administration of vouchers, adding and removing variants, and the redeem call of the voucher service.
- Reading orders and returns, which changes nothing.
- ShopCheckout.ReserveIffFits: takes for granted that no reservation exceeds the stock, which every run keeps.
