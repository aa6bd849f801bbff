/**
 * `check_request` of main.py: the ordered validation of a tokenised command
 * such as `Доставить 3 елки из склад в магазин` or `забрать 2 елки из магазин`.
 * The first failing check decides the verdict; no later check is evaluated.
 */
module Commands {
  import opened Text

  /** Command words, compared after lower-casing the token. */
  const DeliverVerb: string := "доставить"
  const CollectVerb: string := "забрать"
  const WarehouseWord: string := "склад"
  const ShopWord: string := "магазин"

  /** The reasons `check_request` gives, in the order the checks run. */
  datatype RequestError =
    | TooFewWords            // fewer than 5 tokens
    | NotAnInteger           // token 1 is not an integer literal
    | NotPositive            // token 1 is an integer <= 0
    | UnknownVerb            // token 0 is neither verb
    | NoWarehouseWord        // a delivery whose token 4 is not the warehouse word
    | TooFewWordsForDelivery // a delivery with fewer than 7 tokens
    | NotToShop              // a delivery whose token 6 is not the shop word
    | NoShopWord             // a collection whose token 4 is not the shop word

  /** Accepted with the parsed amount, or rejected with the first failing check. */
  datatype Verdict = Accepted(amount: int) | Rejected(error: RequestError)

  /**
   * Declarative grammar of an accepted command with amount `n`, independent
   * of the order in which the validator runs its checks.
   */
  predicate WellFormed(t: seq<string>, n: int) {
    && |t| >= 5
    && ParseInt(t[1]) == Some(n)
    && n > 0
    && ( || (Lower(t[0]) == DeliverVerb && |t| >= 7 && Lower(t[4]) == WarehouseWord && Lower(t[6]) == ShopWord)
         || (Lower(t[0]) == CollectVerb && Lower(t[4]) == ShopWord))
  }

  /** `check_request`: the checks in main.py's order, first failure wins. */
  function CheckRequest(t: seq<string>): (r: Verdict)
    ensures |t| < 5 ==> r == Rejected(TooFewWords)
    ensures r == Rejected(NotAnInteger) <==> |t| >= 5 && ParseInt(t[1]).None?
    ensures r == Rejected(NotPositive) <==> |t| >= 5 && ParseInt(t[1]).Some? && ParseInt(t[1]).value <= 0
    ensures r == Rejected(UnknownVerb) <==>
              && |t| >= 5 && ParseInt(t[1]).Some? && ParseInt(t[1]).value > 0
              && Lower(t[0]) != DeliverVerb && Lower(t[0]) != CollectVerb
    ensures r == Rejected(NoWarehouseWord) <==>
              && |t| >= 5 && ParseInt(t[1]).Some? && ParseInt(t[1]).value > 0
              && Lower(t[0]) == DeliverVerb && Lower(t[4]) != WarehouseWord
    ensures r == Rejected(TooFewWordsForDelivery) <==>
              && 5 <= |t| < 7 && ParseInt(t[1]).Some? && ParseInt(t[1]).value > 0
              && Lower(t[0]) == DeliverVerb && Lower(t[4]) == WarehouseWord
    ensures r == Rejected(NotToShop) <==>
              && |t| >= 7 && ParseInt(t[1]).Some? && ParseInt(t[1]).value > 0
              && Lower(t[0]) == DeliverVerb && Lower(t[4]) == WarehouseWord && Lower(t[6]) != ShopWord
    ensures r == Rejected(NoShopWord) <==>
              && |t| >= 5 && ParseInt(t[1]).Some? && ParseInt(t[1]).value > 0
              && Lower(t[0]) == CollectVerb && Lower(t[4]) != ShopWord
    ensures r.Accepted? ==> WellFormed(t, r.amount)
  {
    if |t| < 5 then Rejected(TooFewWords)
    else match ParseInt(t[1])
      case None => Rejected(NotAnInteger)
      case Some(n) =>
        var verb := Lower(t[0]);
        if n <= 0 then Rejected(NotPositive)
        else if verb != DeliverVerb && verb != CollectVerb then Rejected(UnknownVerb)
        else if verb == DeliverVerb && Lower(t[4]) != WarehouseWord then Rejected(NoWarehouseWord)
        else if verb == DeliverVerb && |t| < 7 then Rejected(TooFewWordsForDelivery)
        else if verb == DeliverVerb && Lower(t[6]) != ShopWord then Rejected(NotToShop)
        else if verb == CollectVerb && Lower(t[4]) != ShopWord then Rejected(NoShopWord)
        else Accepted(n)
  }

  /** The validator accepts exactly the well-formed commands, with their amount. */
  lemma CheckRequestAcceptsExactly(t: seq<string>, n: int)
    ensures CheckRequest(t) == Accepted(n) <==> WellFormed(t, n)
  {
    assert DeliverVerb != CollectVerb;
    assert WarehouseWord != ShopWord;
  }

  /** Words after the seventh never influence the verdict. */
  lemma ExtraWordsIgnored(t: seq<string>)
    requires |t| >= 7
    ensures CheckRequest(t) == CheckRequest(t[..7])
  {
  }

  /** Only the lower-cased form of the verb and keyword positions matters. */
  lemma CaseInsensitive(t: seq<string>, u: seq<string>)
    requires |t| == |u|
    requires forall i :: 0 <= i < |t| ==> Lower(t[i]) == Lower(u[i])
    requires |t| >= 2 ==> t[1] == u[1]
    ensures CheckRequest(t) == CheckRequest(u)
  {
  }

  // ---------------------------------------------------------------------------
  // Writing commands
  // ---------------------------------------------------------------------------

  /** The two kinds of request a user can type. */
  datatype Command = Delivery(amount: int, product: string) | Collection(amount: int, product: string)

  /** The verbs as the prompt prints them (main.py:136-137), capitalised. */
  const DeliverPrompt: string := "Доставить"
  const CollectPrompt: string := "Забрать"

  /** The canonical text of a command, word for word as the prompt's two templates print it. */
  function Render(c: Command): seq<string> {
    match c
    case Delivery(n, p) => [DeliverPrompt, ShowInt(n), p, "из", WarehouseWord, "в", ShopWord]
    case Collection(n, p) => [CollectPrompt, ShowInt(n), p, "из", ShopWord]
  }

  /** The keywords are already in lower case, so they match themselves. */
  lemma KeywordsAreLowerCase()
    ensures Lower(DeliverVerb) == DeliverVerb && Lower(CollectVerb) == CollectVerb
    ensures Lower(WarehouseWord) == WarehouseWord && Lower(ShopWord) == ShopWord
  {
    LowerOfLowerCase(DeliverVerb);
    LowerOfLowerCase(CollectVerb);
    LowerOfLowerCase(WarehouseWord);
    LowerOfLowerCase(ShopWord);
  }

  /** The capitalised verbs of the prompt lower-case to the verbs the validator expects. */
  lemma PromptVerbsLowerToVerbs()
    ensures Lower(DeliverPrompt) == DeliverVerb
    ensures Lower(CollectPrompt) == CollectVerb
  {
  }

  /**
   * Every rendered command with a positive amount is accepted with that
   * amount, unless the amount has more digits than `int()` converts, which
   * is reported as not an integer.
   */
  lemma RenderAccepted(c: Command)
    requires c.amount > 0
    ensures |ShowNat(c.amount)| <= MaxIntDigits ==> CheckRequest(Render(c)) == Accepted(c.amount)
    ensures |ShowNat(c.amount)| > MaxIntDigits ==> CheckRequest(Render(c)) == Rejected(NotAnInteger)
  {
    ParseShowInt(c.amount);
    KeywordsAreLowerCase();
    PromptVerbsLowerToVerbs();
    CheckRequestAcceptsExactly(Render(c), c.amount);
  }
}
