# LoanCentral bot: a Dafny model of its command grammars and loan ledger

LoanCentral is a Reddit bot for a lending community. It watches comments and
posts and keeps two PostgreSQL tables. `loans` holds one row per loan: lender,
borrower, amount, currency, status, amount repaid. `users` holds one row of
counters and totals per user.

It reacts to five comment commands, chosen by the first keyword found in the
lower-cased body:

- `$loan <amount> <CCY>`: an offer. The bot replies with the `$confirm` command
  the borrower should post. Nothing is stored.
- `$confirm /u/<lender> <amount> <CCY>` (or `u/<lender>`): the borrower
  confirms. The bot inserts a `confirmed` loan, credits both users' rows, and
  replies with the `$paid_with_id` command for later repayment.
- `$paid_with_id <id> <amount> <CCY>`: the lender records a repayment. The
  loan's repaid total grows and its status becomes `repaid` or
  `partially_repaid`.
- A reply containing `refunded` to the bot's confirmation reply: the lender
  marks the loan refunded. The bot re-reads the loan's terms from its own
  reply, marks the newest matching loan `refunded`, and decrements both rows.
- `$stats u/<name>`: account statistics fetched from Reddit.

A post whose title contains `[REQ]` gets a summary of its author's history
drawn from the two tables.

The model has eight modules:

- `Text`: Python's `str` and `re` building blocks. These are `\s`, ASCII case
  folding, substring tests, maximal character runs, and decimal numerals.
- `Matchers`: each fixed pattern as a deterministic token matcher, and
  `re.search` as the leftmost position where the matcher succeeds.
- `Commands`: the dispatcher's keyword routing and each handler's pattern and
  gate, giving the command a comment carries.
- `Templates`: two-decimal formatting (`format(x, '.2f')`, rounding half to
  even), the confirmation-reply line, and the suggested code blocks. It proves
  that the bot's own text is read back as the command it stands for.
- `Loans`: the two tables as maps, their invariant, and the user-row updates.
  The class `Ledger` runs the confirm, paid and refund transactions as atomic
  methods (each handler commits once or rolls back). `Ledger.Handle` processes
  one comment.
- `UserInfo`: the figures the `[REQ]` answer is built from.
- `Readings`: commands as people type them (an offer, a confirmation in
  either form in plain text and the bare form in a code block, a payment in
  plain text or in a code block, a stats request), read back with the values
  written in them.
- `Lifecycle`: properties spanning the grammars and the ledger, namely when a
  refund reply finds the loan it answers.

Amounts are exact rationals (`real`). That is what the unconstrained `NUMERIC`
columns hold, what `Decimal(...)` makes of a matched numeral, and what the SQL
sums and updates compute. Python's own `Decimal` additions and subtractions
(:323, :375, :665) round to 28 significant digits; the model does not (see
"Left out"). The serial `id` column stands for creation order
(`ORDER BY date_created DESC`).

Where the behaviour a reader might expect and the code differ, the model
follows the code:

- The paid handler (loan_central_bot.py:292-332) does not check the loan's
  status. A payment on a `repaid` or `refunded` loan is accepted and reopens
  the status as `repaid`/`partially_repaid`.
- The refund lookup (:426-431) has no status filter. Refunding twice finds the
  same loan again and decrements the users' rows a second time
  (`Loans.LookupIgnoresStatus`).
- The confirm handler (:182-234) does not check that lender and borrower
  differ. Only the offer handler does (:133-135).
- No statement ever increments `unpaid_loans` or `unpaid_amount`. The invariant
  therefore holds them at zero, and the decrements on repayment always clamp to
  zero.
- The confirmation reply prints the amount rounded to cents, while the refund
  lookup compares amounts exactly. A loan confirmed with a sub-cent amount
  (e.g. `10.005`) can never be found from its own reply
  (`Lifecycle.SubCentLoanNotRefunded`, `Lifecycle.SubCentExample`).

## Model

| member | source | states |
|---|---|---|
| Text.HasSubstring | loan_central_bot.py:747-758 | Python's `kw in s` as a scan: true exactly when `kw` occurs at some offset of `s` |
| Text.Span | loan_central_bot.py:121 | a greedy run of `\s`, `\d`, `[^\s]` or `[^\s.]`: the run and the rest concatenate to the input, the run is all in class, and the rest cannot extend it |
| Text.SpanOf | loan_central_bot.py:402 | any split into an in-class run and a rest that cannot continue it is the one the greedy run finds |
| Text.NatDigits | loan_central_bot.py:246 | `str(n)` of the loan id: a non-empty digit string whose decimal value is `n`, with no leading zero |
| Matchers.Amount | loan_central_bot.py:121 | `\d+(?:\.\d+)?` read as a `Decimal`: a match always denotes a non-negative amount |
| Matchers.Letters3 | loan_central_bot.py:121 | `[A-Z]{3}`: three letters, upper-case ones unless the pattern ignores case |
| Matchers.ShortestContent | loan_central_bot.py:165 | the lazy `(.*?)` of the code-block pattern: the first content length after which optional whitespace and a closing fence follow, and no shorter one closes |
| Matchers.ConfirmAt | loan_central_bot.py:172-178 | a `$confirm` match yields a non-empty name, a non-negative amount and three letters |
| Matchers.PaidAt | loan_central_bot.py:273 | a `$paid_with_id` match yields an id, a non-negative amount and three letters |
| Matchers.BlockAt | loan_central_bot.py:165-166 | a code-block match yields the block content |
| Matchers.MatchAt | loan_central_bot.py:121 | every pattern that matches yields groups of the shape its regex allows |
| Matchers.Search | loan_central_bot.py:122 | `re.search`: no match at any offset, or the groups of the match at the leftmost offset where one exists |
| Matchers.Find | loan_central_bot.py:173 | a search for a pattern yields groups that fit it |
| Matchers.SearchFinds | loan_central_bot.py:173 | a match at offset `k` with none before determines the search result |
| Matchers.FindAt | loan_central_bot.py:403 | the same for a named pattern |
| Matchers.NotFound | loan_central_bot.py:122 | a pattern that matches at no offset is not found |
| Matchers.NeedsDollar | loan_central_bot.py:121 | the `$loan`, `$confirm`, `$paid_with_id` and `$stats` patterns match only where a `$` stands, whatever the case of the keyword |
| Matchers.FindAfterDollarFree | loan_central_bot.py:122 | text without a `$` in front of a match of those patterns does not change what the search finds |
| Commands.CommandText | loan_central_bot.py:165-169 | the body when it holds no code block; otherwise the first block's content, shorter than the body by at least the two fences |
| Commands.ParseOffer | loan_central_bot.py:121-131 | an offer is read exactly when the `$loan` pattern matches; the amount is non-negative and the currency three upper-case letters (`Readings.OfferReads` ties both to the typed text) |
| Commands.ParseConfirm | loan_central_bot.py:164-185 | a confirmation is read exactly when either form matches in the command text; the `/u/` form wins wherever it occurs, and the bare `u/` form is read only when it is absent; the lender is a non-empty lower-case name; the currency is upper-cased (`Readings.SlashConfirmReads`, `Readings.BareConfirmPlainReads` and `Readings.BareConfirmReads` tie the values to the typed text) |
| Commands.ConfirmOf | loan_central_bot.py:183-185 | a confirm match becomes a lower-case lender, the amount, and an upper-case currency |
| Commands.ParsePaid | loan_central_bot.py:265-282 | a payment is read exactly when the paid pattern matches in the command text (the first code block's content, else the body); the amount is non-negative and the currency three upper-case letters (`Readings.PaidReads` and `Readings.PaidBlockReads` tie the id, the amount and the currency to the typed text) |
| Commands.ParseParent | loan_central_bot.py:401-411 | re-reading the bot's confirmation gives a refund with non-empty lower-case borrower and lender and an upper-case currency, or nothing |
| Commands.ParseStats | loan_central_bot.py:490-494 | a stats request names a non-empty lower-case user (`Readings.StatsReads` ties it to the typed name) |
| Commands.Route | loan_central_bot.py:744-758 | comments without an author, or by the bot, go nowhere; otherwise each handler runs exactly when its keyword occurs in the lower-cased body and no earlier keyword does |
| Commands.Considered | loan_central_bot.py:744 | a considered comment has an author, and that author is not the bot account as written |
| Commands.ParentIsBot | loan_central_bot.py:394 | a parent written by the bot account counts as the bot's, whatever case the configured name uses |
| Commands.Recognize | loan_central_bot.py:394-411 | the handler routing chose decides the command: no handler gives nothing, and each other handler's own grammar gives the command; a refund is read from the parent only when the bot wrote it; amounts are non-negative and currencies three upper-case letters |
| Commands.LoanKeywordShadows | loan_central_bot.py:749-750 | a body mentioning `$loan` anywhere is only ever read as an offer |
| Templates.Cents | loan_central_bot.py:241 | two-decimal rounding: within half a cent of the amount, ties to the even cent |
| Templates.Fmt2 | loan_central_bot.py:241 | `format(x, '.2f')`: digits, a point, and exactly two digits after it |
| Templates.Round2OfCents | loan_central_bot.py:241 | an amount of whole cents is printed exactly |
| Templates.Fmt2Value | loan_central_bot.py:241 | the digits `format(x, '.2f')` writes denote `x` rounded to cents |
| Templates.AmountOfNumeral | loan_central_bot.py:402 | the amount grammar reads `whole.frac` followed by a non-digit as that numeral's exact value |
| Templates.AmountOfFmt2 | loan_central_bot.py:402 | the amount grammar reads a two-decimal rendering back as the rounded value |
| Templates.ParentMatchesLine | loan_central_bot.py:402 | the refund pattern matches the confirmation line where its `u/` begins, with the reply's borrower, rounded amount, currency and lender |
| Templates.ParentNeedsU | loan_central_bot.py:402 | the refund pattern cannot match at text that does not start with `u/` |
| Templates.FindAfterHead | loan_central_bot.py:403 | a `u/`-free head before the matching line does not change the search result |
| Templates.ReplyLine | loan_central_bot.py:241 | the confirmation line begins with the `u/` where the refund pattern starts |
| Templates.ConfirmReply | loan_central_bot.py:240-241 | the reply holds no `u` before its confirmation line, whose `u/` is the first place the refund pattern can start |
| Templates.RefundReadsConfirmReply | loan_central_bot.py:240-241 | re-parsing the bot's confirmation reply gives back its borrower, currency and lender, and its amount rounded to cents |
| Templates.CodeBlock | loan_central_bot.py:148-150 | a code block as the bot writes one: the fence and a line break, the command, a line break and the fence |
| Templates.NoCloseInside | loan_central_bot.py:165 | a code block cannot close inside a backtick-free command with no space at either end |
| Templates.ShortestIsCommand | loan_central_bot.py:165 | the shortest content of a bot-written block is the whole command |
| Templates.BlockFound | loan_central_bot.py:165-166 | the block pattern finds a bot-written block at the head of the text, with its command as content, whatever follows it |
| Templates.CommandTextOfBlock | loan_central_bot.py:165-170 | a posted bot-written block, whatever follows it, makes its command the command text |
| Templates.SuggestedConfirm | loan_central_bot.py:149 | the suggested confirmation starts `$confirm /u/` and the lender and ends with the currency |
| Templates.SuggestedConfirmSafe | loan_central_bot.py:148-150 | the suggested `$confirm` command fits in a block unchanged |
| Templates.ConfirmCommandMatches | loan_central_bot.py:172-178 | either confirm form, with a numeral the amount grammar reads as `v`, matches with its name, `v` and its currency in any letter case |
| Templates.SuggestedConfirmMatches | loan_central_bot.py:149 | the `/u/` confirm pattern matches the suggested command with its lender, rounded amount and currency |
| Templates.ConfirmSuggestionRoundTrip | loan_central_bot.py:148-150 | posting the block the offer reply suggests confirms the offered loan: same lender and currency, amount rounded to cents |
| Templates.SuggestedPaid | loan_central_bot.py:246 | the suggested payment starts `$paid_with_id ` and ends with the currency |
| Templates.SuggestedPaidSafe | loan_central_bot.py:245-247 | the suggested `$paid_with_id` command fits in a block unchanged |
| Templates.SuggestedPaidMatches | loan_central_bot.py:246 | the paid pattern matches the suggested command with its id, rounded amount and currency |
| Templates.PaidSuggestionRoundTrip | loan_central_bot.py:245-247 | posting the block the confirmation reply suggests pays the recorded loan by its id, with its currency and its amount rounded to cents |
| Readings.Numeral | loan_central_bot.py:121 | a typed numeral starts with a digit and holds no `$` and no backtick |
| Readings.AmountOfWhole | loan_central_bot.py:121 | a whole number not followed by a point and a digit is read as its exact value |
| Readings.AmountReads | loan_central_bot.py:129 | a typed numeral, with or without a fraction, is read as its exact value |
| Readings.OfferMatches | loan_central_bot.py:121 | the offer pattern matches `$loan <amount> <CCY>` with that amount and those three letters, whatever follows them |
| Readings.OfferReads | loan_central_bot.py:121-131 | an offer typed after `$`-free text is read with its exact amount and its currency upper-cased |
| Readings.StatsPrefix | loan_central_bot.py:490 | the alternation of `/u/` and `u/` consumes exactly the prefix that was written, trying `/u/` first |
| Readings.StatsMatches | loan_central_bot.py:490 | the stats pattern matches `$stats /u/<name>` and `$stats u/<name>` with the whole name up to the next whitespace |
| Readings.StatsReads | loan_central_bot.py:490-494 | a stats request typed after `$`-free text names the written user, lower-cased, in either form |
| Readings.BareConfirm | loan_central_bot.py:177 | a bare-form confirmation starts with its `$` |
| Readings.BareConfirmMatches | loan_central_bot.py:177 | the bare confirm pattern matches such a command with its name, exact amount and currency |
| Readings.SlashFailsAtBare | loan_central_bot.py:172 | the `/u/` form does not match where a bare confirmation begins |
| Readings.NoSlashInBare | loan_central_bot.py:172-178 | a bare confirmation with `$`-free name and amount contains no `/u/`-form match, so the bare form is the one tried |
| Readings.BareConfirmSafe | loan_central_bot.py:165 | a bare confirmation with backtick-free parts fits in a code block unchanged |
| Readings.BareConfirmReads | loan_central_bot.py:164-185 | a bare-form confirmation posted in a code block confirms a loan from the lower-cased lender, of the exact amount typed, in the upper-cased currency |
| Readings.TypedNumeral | loan_central_bot.py:272-280 | a typed numeral followed by a space starts with a digit, holds no backtick and is read as its exact value |
| Readings.NoBlockWithoutBacktick | loan_central_bot.py:265-269 | a comment without a backtick holds no code block, so the whole body is searched |
| Readings.PaidHead | loan_central_bot.py:272 | `$paid_with_id` in any case, one space and the id's digits are consumed up to the space after them |
| Readings.PaidMatches | loan_central_bot.py:272 | the paid pattern matches `$paid_with_id <id> <amount> <CCY>` with the id's digit value, the amount read and the three letters in any case, whatever follows them |
| Readings.PaidFound | loan_central_bot.py:272-273 | a typed payment after `$`-free text is the leftmost match of the paid pattern |
| Readings.TypedPaidSafe | loan_central_bot.py:265 | a typed payment with backtick-free amount and tail holds no backtick |
| Readings.ParsePaidOf | loan_central_bot.py:269-282 | once the command text and the paid match in it are known, the payment carries that id and amount and the upper-cased currency |
| Readings.PaidNumeralReads | loan_central_bot.py:265-282 | a plain-text payment after `$`-free, backtick-free text pays the id typed with the amount the numeral reads as |
| Readings.PaidReads | loan_central_bot.py:265-282 | a payment typed in plain text after `$`-free text, in a comment without a code block, pays the loan whose id the digits spell, with the exact amount typed and the currency upper-cased |
| Readings.TypedPaidBlockSafe | loan_central_bot.py:265 | a typed payment fits in a code block unchanged |
| Readings.PaidNumeralBlockReads | loan_central_bot.py:265-282 | a payment posted in a code block pays the id typed with the amount the numeral reads as |
| Readings.PaidBlockReads | loan_central_bot.py:265-282 | a payment typed in a code block, followed by anything, pays the loan whose id the digits spell, with the exact amount typed and the currency upper-cased |
| Readings.TypedConfirmMatches | loan_central_bot.py:172-178 | either confirm form matches `$confirm <prefix><name> <amount> <CCY>` with the whole name, the amount read and the three letters in any case, whatever follows them |
| Readings.ConfirmHead | loan_central_bot.py:172-177 | `$confirm` in any case, one space, the prefix and the name are consumed up to the space after the name |
| Readings.TypedConfirmLacks | loan_central_bot.py:165-178 | after its `$`, a typed confirmation lacks a backtick or `$` that its name, amount and tail lack |
| Readings.ConfirmTailLacks | loan_central_bot.py:172-178 | the name, amount, currency and tail of a typed confirmation together lack what each lacks |
| Readings.TypedConfirmSafe | loan_central_bot.py:165-168 | a typed confirmation with backtick-free name, amount and tail holds no backtick |
| Readings.SlashConfirmNumeralReads | loan_central_bot.py:164-185 | a plain-text `/u/` confirmation after `$`-free, backtick-free text confirms the lower-cased name with the amount its numeral reads as and the upper-cased currency |
| Readings.SlashConfirmReads | loan_central_bot.py:164-185 | `$confirm /u/<name> <amount> <CCY>` typed in plain text after `$`-free text, in a comment without a code block, confirms a loan from the lower-cased lender of the exact amount typed, in the upper-cased currency, whatever follows |
| Readings.TypedSlashFails | loan_central_bot.py:172 | the `/u/` form does not match where a typed bare confirmation begins |
| Readings.NoSlashInTyped | loan_central_bot.py:172-178 | a `$`-free head followed by a typed bare confirmation with no further `$` contains no `/u/`-form match, so the bare form is tried |
| Readings.BareConfirmNumeralReads | loan_central_bot.py:164-185 | a plain-text bare confirmation confirms the lower-cased name with the amount its numeral reads as and the upper-cased currency |
| Readings.BareConfirmPlainReads | loan_central_bot.py:164-185 | `$confirm u/<name> <amount> <CCY>` typed in plain text after `$`-free text, in a comment without a code block and with no other `$`, confirms a loan from the lower-cased lender of the exact amount typed, in the upper-cased currency |
| Loans.CreditLender | loan_central_bot.py:213-222 | one more loan as lender and the amount added to the lent total; no other column changes; the row invariant is kept |
| Loans.CreditBorrower | loan_central_bot.py:225-234 | one more loan as borrower and the amount added to the borrowed total; no other column changes; the row invariant is kept |
| Loans.DebitLender | loan_central_bot.py:450-456 | the lender's count becomes `GREATEST(count - 1, 0)` and the total `GREATEST(total - amount, 0)`, an exact decrement when neither clamps; no other column changes |
| Loans.DebitBorrower | loan_central_bot.py:458-464 | the borrower's count becomes `GREATEST(count - 1, 0)` and the total `GREATEST(total - amount, 0)`, an exact decrement when neither clamps; no other column changes |
| Loans.CreditRepayment | loan_central_bot.py:335-350 | the repaid total grows by the payment; the unpaid counters change only when the loan is settled, and stay non-negative; nothing else changes |
| Loans.ConfirmStats | loan_central_bot.py:213-234 | both upserts create missing rows and credit the lender's and the borrower's counters and totals (both, when they are one user); other rows are unchanged; the invariant is kept |
| Loans.RefundStats | loan_central_bot.py:450-464 | the clamped decrements touch only existing rows of the two parties; the key set and other rows are unchanged; the invariant is kept |
| Loans.PaidStats | loan_central_bot.py:335-350 | the borrower's repaid total grows by the payment; the unpaid counters drop, clamped at zero, only when the loan is settled; nothing else changes |
| Loans.UnpaidNeverRises | loan_central_bot.py:342-350 | on any table whose unpaid counters are non-negative, no confirmation, refund or payment raises a user's unpaid counters; a settled payment lowers them towards zero |
| Loans.RefundUndoesConfirm | loan_central_bot.py:450-464 | for users who already had rows, refunding a confirmation restores both rows exactly |
| Loans.Settle | loan_central_bot.py:322-332 | a payment adds to the repaid total; the status becomes `repaid` exactly when the total reaches the amount, else `partially_repaid`; the row invariant is kept |
| Loans.Remaining | loan_central_bot.py:375-379 | the reported balance is never negative, is zero exactly when the loan is paid off, and otherwise tops the repaid total up to the amount |
| Loans.PaymentsAccumulate | loan_central_bot.py:323-324 | over any run of payments the repaid total grows by their sum and the loan is `repaid` exactly when that reaches its amount |
| Loans.Matches | loan_central_bot.py:427-429 | a loan matches exactly when it agrees with the looked-up parties, amount and currency, whatever its status and repaid total |
| Loans.LatestMatch | loan_central_bot.py:426-431 | the refund lookup returns the newest loan with those parties, amount and currency, and none exists when it returns nothing |
| Loans.LookupIgnoresStatus | loan_central_bot.py:427-429 | changing a loan's status never changes what the refund lookup finds |
| Loans.RefundKeepsConsistent | loan_central_bot.py:442-464 | marking a loan refunded and decrementing both parties' rows keeps the tables consistent |
| Loans.PayKeepsConsistent | loan_central_bot.py:322-350 | settling a loan and crediting its borrower keeps the tables consistent |
| Loans.Ledger.constructor | loan_central_bot.py:63-92 | empty tables satisfy the invariant; the serial starts at 1 |
| Loans.Ledger.Confirm | loan_central_bot.py:201-234 | inserts a `confirmed` loan under the next serial and applies both upserts; the invariant is kept |
| Loans.Ledger.Pay | loan_central_bot.py:292-360 | `PayEffect`: an id beyond the integer column fails; an unknown id or another lender's loan and a currency mismatch are rejected without change; otherwise the row is settled, the borrower is credited and the balance reported; the serial is untouched; the invariant is kept |
| Loans.Ledger.Refund | loan_central_bot.py:426-466 | `RefundEffect`: with no matching loan, rejects without change; otherwise marks the newest match `refunded` and decrements both rows; the serial is untouched; the invariant is kept |
| Loans.Ledger.Perform | loan_central_bot.py:182-466 | a recognised confirm, paid, refund or stats command run for its author: stats change nothing; a confirmation inserts the loan with the author as borrower; a payment has the whole `PayEffect`; a refund by anyone but the lender is rejected without change, and one by the lender has the whole `RefundEffect`; payments and refunds never add loans or users |
| Loans.Ledger.Handle | loan_central_bot.py:743-758 | per recognised command: offers, stats and unmatched comments change nothing; a confirmation inserts the loan with the author as borrower; a payment has the whole `PayEffect` for the lower-cased author; a refund by anyone but the lender is rejected, and one by the lender has the whole `RefundEffect`; payments and refunds never add loans or users |
| Loans.OfferOutcome | loan_central_bot.py:120-155 | an offer crashes exactly when the post has no author, is dropped exactly when lender and borrower are the same user, and otherwise advises the commenter, lower-cased, as lender and the post author, lower-cased, as borrower, with the offered terms |
| UserInfo.OpenIds | loan_central_bot.py:623-630 | the open loans a user takes part in, in that role: all of them, none else, newest first |
| UserInfo.Outstanding | loan_central_bot.py:634-640 | what a list of loans still owes is non-negative when no loan in it is over-repaid |
| UserInfo.Lookup | loan_central_bot.py:595-666 | no history exactly when the lower-cased name has no row; otherwise the row, the count of open loans as borrower, the newest at most five open loans as lender, the outstanding totals, and how many the table omits |
| UserInfo.TableIsNewest | loan_central_bot.py:623-630 | every open loan as lender that the table leaves out is older than every loan it shows |
| UserInfo.OutstandingNonNegative | loan_central_bot.py:633-640 | on valid rows the outstanding sum is non-negative and every prefix sums to no more than the whole |
| UserInfo.TotalsOrdered | loan_central_bot.py:663-668 | on a consistent ledger the table total lies between zero and the in-progress total |
| UserInfo.PostAnswer | loan_central_bot.py:712-717 | a post is answered exactly when it has an author and its title contains `[req]` in any case, with its author's figures |
| Lifecycle.RefundReadsWholeCents | loan_central_bot.py:401-411 | for a whole-cent amount, re-reading the confirmation reply gives back the exact terms |
| Lifecycle.LoanFindsItself | loan_central_bot.py:426-431 | the refund lookup, asked for a loan's own terms, finds that loan or a newer one with the same terms |
| Lifecycle.RefundFindsConfirmedLoan | loan_central_bot.py:240-241 | a whole-cent loan can always be refunded from its confirmation reply: that loan or a newer identical one is found |
| Lifecycle.SubCentLoanNotRefunded | loan_central_bot.py:426-431 | a loan with a sub-cent amount is never the one its confirmation reply's refund finds |
| Lifecycle.SubCentExample | loan_central_bot.py:241 | concretely, `10.005` is shown as `10.00`, and a loan of `10.005` does not match the re-read amount |

## Left out

- Reddit I/O (the PRAW streams, replies, the moderator message) is not modelled. Only what each handler decides to reply with is kept, as an `Outcome`.
- The database connection and cursors are not modelled. `get_db_connection` failing silently, timestamps, and the `original_thread` link are left out. A rollback after a failed statement is modelled only as `StoreFailed`, with no change.
- `generate_loan_id` (the wall-clock `loan_id` text column) is not modelled. Two confirmations within the same second collide on its `UNIQUE` constraint; that rollback is left out because it depends on the clock.
- Loans.Ledger.Confirm: the 32-bit `SERIAL` overflow on insert is not modelled. The serial grows without bound.
- The `$stats` handler's data gathering (Reddit account history, karma, gaps between posts, account age, :491-584) is left out. That is network I/O and floating-point averages; only its pattern is modelled (`Commands.ParseStats`).
- The keep-alive thread, logging, the two monitor threads' interleaving, and the reconnection sleeps are left out. The `Crashed` outcome is where the stream restarts.
- Exact reply wording and Markdown layout are left out. The model proves properties of the few reply lines that are read back as commands (the confirmation line and the suggested code blocks).
- A parent that is a submission rather than a comment, in the refund handler, is left out. Its `body` would raise.
- Case folding and `\d` are ASCII only. Python lower-cases non-ASCII letters and accepts non-ASCII digits, which this model does not.
- Loans.Settle: the new repaid total (:323) is a Python `Decimal` addition, which rounds to 28 significant digits. The model adds exactly, so the two differ once a loan's figures need more than 28 digits. For example, a loan of `1000000000000000000000000000.5` repaid in one payment of that amount is `partially_repaid` in the bot, and `repaid` here.
- Loans.Remaining: the balance (:375) is a 28-digit `Decimal` subtraction in the bot and exact here. The two differ only past 28 significant digits.
- UserInfo.Lookup: the table total (:665) is a Python `sum` of 28-digit `Decimal` differences, while the model sums exactly. The in-progress total is an SQL `SUM` and is exact in both.
- UserInfo.Lookup: the two `LIMIT 5` queries (:623-630, :643-650) are identical, so the model computes the table once. The Markdown it is printed in is left out.
