/**
 * Command recognition: which handler the comment monitor hands a comment
 * to (loan_central_bot.py:744-758), and what that handler's pattern
 * extracts from the text before it touches the ledger.
 */
module Commands {
  import opened Wrappers
  import opened Text
  import opened Matchers

  /** What a comment asks for, with the values its pattern captured. */
  datatype Command =
    | Offer(amount: real, currency: string)
    | Confirm(lender: string, amount: real, currency: string)
    | Paid(loanId: nat, amount: real, currency: string)
    | Refund(borrower: string, amount: real, currency: string, lender: string)
    | Stats(user: string)
    | NoMatch

  /** A well-formed currency code: three upper-case letters. */
  predicate IsCurrency(c: string) {
    |c| == 3 && AllUpperLetters(c)
  }

  /** The text the confirm and paid grammars search: the first fenced block's content if there is one, else the body. */
  function CommandText(body: string): (r: string)
    ensures Find(BlockPattern, body).None? ==> r == body
    ensures Find(BlockPattern, body).Some? ==> |r| + 6 <= |body|
  {
    match Find(BlockPattern, body)
    case Some(h) =>
      assert |h.content| + 6 <= |body| by {
        var k: nat :| LeftmostAt(Pat(BlockPattern), body, k) && Pat(BlockPattern)(body[k..]) == Some(h);
        BlockPatternIsBlockAt(body[k..]);
      }
      h.content
    case None => body
  }

  /** The `$loan` grammar (:121-131): exact amount, upper-cased currency. */
  function ParseOffer(body: string): (r: Command)
    ensures r.Offer? || r.NoMatch?
    ensures r.Offer? <==> Find(LoanPattern, body).Some?
    ensures r.Offer? ==> r.amount >= 0.0 && IsCurrency(r.currency)
  {
    match Find(LoanPattern, body)
    case Some(h) => Offer(h.amount, UpperStr(h.currency))
    case None => NoMatch
  }

  /**
   * The `$confirm` grammar (:165-185): in the command text, the `/u/` form
   * anywhere wins over the bare `u/` form; the lender is lower-cased.
   */
  function ParseConfirm(body: string): (r: Command)
    ensures r.Confirm? || r.NoMatch?
    ensures r.Confirm? ==> |r.lender| > 0 && AllLower(r.lender)
    ensures r.Confirm? ==> r.amount >= 0.0 && IsCurrency(r.currency)
    ensures r.Confirm? <==>
              Find(ConfirmSlashPattern, CommandText(body)).Some? || Find(ConfirmBarePattern, CommandText(body)).Some?
    ensures Find(ConfirmSlashPattern, CommandText(body)).Some? ==>
              r == ConfirmOf(Find(ConfirmSlashPattern, CommandText(body)).value)
    ensures Find(ConfirmSlashPattern, CommandText(body)).None? && Find(ConfirmBarePattern, CommandText(body)).Some? ==>
              r == ConfirmOf(Find(ConfirmBarePattern, CommandText(body)).value)
  {
    var text := CommandText(body);
    match Find(ConfirmSlashPattern, text)
    case Some(h) => ConfirmOf(h)
    case None =>
      match Find(ConfirmBarePattern, text)
      case Some(h) => ConfirmOf(h)
      case None => NoMatch
  }

  function ConfirmOf(h: Hit): (r: Command)
    requires Fits(ConfirmSlashPattern, h)
    ensures r.Confirm? && |r.lender| > 0 && AllLower(r.lender)
    ensures r.amount >= 0.0 && IsCurrency(r.currency)
  {
    LowerStrIdempotent(h.name);
    Confirm(LowerStr(h.name), h.amount, UpperStr(h.currency))
  }

  /** The `$paid_with_id` grammar (:266-282), searched in the command text. */
  function ParsePaid(body: string): (r: Command)
    ensures r.Paid? || r.NoMatch?
    ensures r.Paid? <==> Find(PaidPattern, CommandText(body)).Some?
    ensures r.Paid? ==> r.amount >= 0.0 && IsCurrency(r.currency)
  {
    match Find(PaidPattern, CommandText(body))
    case Some(h) => Paid(h.id, h.amount, UpperStr(h.currency))
    case None => NoMatch
  }

  /**
   * The confirmation-reply pattern applied to the parent comment (:401-411):
   * borrower and lender lower-cased, the currency as written.
   */
  function ParseParent(parentBody: string): (r: Command)
    ensures r.Refund? || r.NoMatch?
    ensures r.Refund? ==> |r.borrower| > 0 && |r.lender| > 0 && AllLower(r.borrower) && AllLower(r.lender)
    ensures r.Refund? ==> r.amount >= 0.0 && IsCurrency(r.currency)
  {
    match Find(ParentPattern, parentBody)
    case Some(h) =>
      LowerStrIdempotent(h.borrower);
      LowerStrIdempotent(h.lender);
      Refund(LowerStr(h.borrower), h.amount, h.currency, LowerStr(h.lender))
    case None => NoMatch
  }

  /** The `$stats` grammar (:490): the user name lower-cased. */
  function ParseStats(body: string): (r: Command)
    ensures r.Stats? || r.NoMatch?
    ensures r.Stats? ==> |r.user| > 0 && AllLower(r.user)
  {
    match Find(StatsPattern, body)
    case Some(h) =>
      LowerStrIdempotent(h.name);
      Stats(LowerStr(h.name))
    case None => NoMatch
  }

  // ---------------------------------------------------------------------
  // The dispatcher
  // ---------------------------------------------------------------------

  datatype Handler = NoHandler | LoanHandler | ConfirmHandler | PaidHandler | RefundHandler | StatsHandler

  /** A comment the monitor looks at: it has an author, and the author is not the bot (:744). */
  predicate Considered(author: Option<string>, bot: string)
    ensures Considered(author, bot) ==> author.Some? && author.value != bot
  {
    author.Some? && LowerStr(author.value) != LowerStr(bot)
  }

  /**
   * The monitor's choice (:747-758): the first keyword, in a fixed order,
   * that occurs in the lower-cased body picks the one handler that runs.
   */
  function Route(author: Option<string>, bot: string, body: string): (h: Handler)
    ensures !Considered(author, bot) ==> h == NoHandler
    ensures Considered(author, bot) ==>
      && (h == LoanHandler <==> Mentions(body, "$loan"))
      && (h == ConfirmHandler <==> !Mentions(body, "$loan") && Mentions(body, "$confirm"))
      && (h == PaidHandler <==>
            !Mentions(body, "$loan") && !Mentions(body, "$confirm") && Mentions(body, "$paid_with_id"))
      && (h == RefundHandler <==>
            !Mentions(body, "$loan") && !Mentions(body, "$confirm") && !Mentions(body, "$paid_with_id")
            && Mentions(body, "refunded"))
      && (h == StatsHandler <==>
            !Mentions(body, "$loan") && !Mentions(body, "$confirm") && !Mentions(body, "$paid_with_id")
            && !Mentions(body, "refunded") && Mentions(body, "$stats"))
  {
    if !Considered(author, bot) then
      NoHandler
    else
      var lower := LowerStr(body);
      if HasSubstring(lower, "$loan") then LoanHandler
      else if HasSubstring(lower, "$confirm") then ConfirmHandler
      else if HasSubstring(lower, "$paid_with_id") then PaidHandler
      else if HasSubstring(lower, "refunded") then RefundHandler
      else if HasSubstring(lower, "$stats") then StatsHandler
      else NoHandler
  }

  /** What the ingestion side hands over for one comment. */
  datatype Comment = Comment(
    author: Option<string>,
    body: string,
    parentAuthor: Option<string>,   // author of the comment this one replies to
    parentBody: string,
    postAuthor: Option<string>)     // author of the submission the comment is under

  /** The parent comment was written by the bot account (:394). */
  predicate ParentIsBot(c: Comment, bot: string)
    ensures c.parentAuthor == Some(bot) ==> ParentIsBot(c, bot)
  {
    c.parentAuthor.Some? && LowerStr(c.parentAuthor.value) == LowerStr(bot)
  }

  /** The command a comment carries: routing, then the chosen handler's own gate and pattern. */
  function Recognize(c: Comment, bot: string): (r: Command)
    ensures !Considered(c.author, bot) ==> r == NoMatch
    ensures r.Offer? ==> Route(c.author, bot, c.body) == LoanHandler
    ensures r.Confirm? ==> Route(c.author, bot, c.body) == ConfirmHandler
    ensures r.Paid? ==> Route(c.author, bot, c.body) == PaidHandler
    ensures r.Refund? ==> Route(c.author, bot, c.body) == RefundHandler
    ensures r.Refund? ==> ParentIsBot(c, bot) && Mentions(c.body, "refunded")
    ensures r.Stats? ==> Route(c.author, bot, c.body) == StatsHandler
    ensures r.Offer? || r.Confirm? || r.Paid? || r.Refund? ==> r.amount >= 0.0 && IsCurrency(r.currency)
    ensures Route(c.author, bot, c.body) == NoHandler ==> r == NoMatch
    ensures Route(c.author, bot, c.body) == LoanHandler ==> r == ParseOffer(c.body)
    ensures Route(c.author, bot, c.body) == ConfirmHandler ==> r == ParseConfirm(c.body)
    ensures Route(c.author, bot, c.body) == PaidHandler ==> r == ParsePaid(c.body)
    ensures Route(c.author, bot, c.body) == RefundHandler ==>
              r == if ParentIsBot(c, bot) then ParseParent(c.parentBody) else NoMatch
    ensures Route(c.author, bot, c.body) == StatsHandler ==> r == ParseStats(c.body)
  {
    match Route(c.author, bot, c.body)
    case NoHandler => NoMatch
    case LoanHandler => ParseOffer(c.body)
    case ConfirmHandler => ParseConfirm(c.body)
    case PaidHandler => ParsePaid(c.body)
    case RefundHandler =>
      if ParentIsBot(c, bot) && HasSubstring(LowerStr(c.body), "refunded") then ParseParent(c.parentBody)
      else NoMatch
    case StatsHandler => ParseStats(c.body)
  }

  /**
   * A body that mentions `$loan` anywhere is only ever read as an offer:
   * a confirmation or payment in the same comment is not recorded.
   */
  lemma LoanKeywordShadows(c: Comment, bot: string)
    requires Mentions(c.body, "$loan")
    ensures Recognize(c, bot).Offer? || Recognize(c, bot).NoMatch?
  {
  }
}
