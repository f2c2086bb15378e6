/**
 * The transactions list page: the cards made from the server's listing,
 * the status filter and the search box over them, and the two real-time
 * handlers that add a card or merge an update into the cards.
 */
module Transactions {
  import opened Common
  import opened TransactionModel
  import TransactionRoutes

  /** A card: a plain object whose properties the page reads by name. */
  type Card = map<string, JVal>

  // ---------------------------------------------------------------- cards

  /** `s.charAt(0).toUpperCase() + s.slice(1)`. */
  function Capitalize(s: string): (r: string)
    ensures |r| == |s| && (s != [] ==> r[0] == UpperChar(s[0]) && r[1..] == s[1..])
  {
    if s == [] then [] else [UpperChar(s[0])] + s[1..]
  }

  function PaymentStatusName(p: PaymentStatus): string
  {
    match p
    case PayPending => "pending"
    case PayFunded => "funded"
    case PayCompleted => "completed"
    case PayFailed => "failed"
    case PayCancelled => "cancelled"
    case PayProcessing => "processing"
  }

  /** The status a card shows: the server's name with a capital first letter. */
  function CardStatus(s: Status): (name: string)
    ensures name != [] && IsUpper(name[0]) && name[1..] == StatusName(s)[1..]
  {
    Capitalize(StatusName(s))
  }

  /** A card's `requiresAction`: the deal awaits agreement or payment. */
  predicate RequiresAction(s: Status)
  {
    s == Agreement || s == Payment
  }

  /**
   * The card made from one row of the listing. The date and the amount
   * keep their values, a NaN amount standing as `Undefined`; their locale
   * text is not modelled.
   */
  function ToCard(tx: TransactionRoutes.Summary): (card: Card)
    ensures Get(card, "id") == (if tx.id.Some? then JStr(tx.id.value) else Undefined)
    ensures Get(card, "title") == tx.title && Get(card, "assetType") == tx.assetType
    ensures Get(card, "role") == JStr(if tx.isSeller then "Seller" else "Buyer")
    ensures Get(card, "status") == JStr(CardStatus(tx.status))
    ensures Get(card, "requiresAction") == JBool(RequiresAction(tx.status))
  {
    map["id" := (if tx.id.Some? then JStr(tx.id.value) else Undefined),
        "assetType" := tx.assetType,
        "title" := tx.title,
        "created" := JNum(tx.createdAt),
        "amount" := (if tx.amount.Some? then JNum(tx.amount.value) else Undefined),
        "currency" := JStr("KES"),
        "role" := JStr(if tx.isSeller then "Seller" else "Buyer"),
        "status" := JStr(CardStatus(tx.status)),
        "requiresAction" := JBool(RequiresAction(tx.status)),
        "paymentStatus" := JStr(PaymentStatusName(tx.paymentStatus))]
  }

  /** Every row carries a number as its amount (none is NaN, sent as `null`). */
  predicate AllAmounts(rows: seq<TransactionRoutes.Summary>)
  {
    forall k :: 0 <= k < |rows| ==> rows[k].amount.Some?
  }

  /** `data.map(...)`: one card per row, in the listing's order. */
  function ToCards(rows: seq<TransactionRoutes.Summary>): (cards: seq<Card>)
    ensures |cards| == |rows| && forall i :: 0 <= i < |rows| ==> cards[i] == ToCard(rows[i])
  {
    seq(|rows|, i requires 0 <= i < |rows| => ToCard(rows[i]))
  }

  // ---------------------------------------------------------------- filter and search

  /**
   * The status filter, whose choices are "Filter by status", "All",
   * "Action required", "Open" and "Closed": everything, the cards that
   * need action, or the cards showing exactly that status.
   */
  predicate MatchesFilter(card: Card, filter: string)
  {
    if filter == "All" || filter == "Filter by status" then true
    else if filter == "Action required" then Get(card, "requiresAction") == JBool(true)
    else Get(card, "status") == JStr(filter)
  }

  /**
   * No card the listing produces is "Open" or "Closed": the two choices
   * the filter offers besides "All" and "Action required" empty the list.
   */
  lemma OpenAndClosedMatchNoCard(tx: TransactionRoutes.Summary, filter: string)
    requires filter == "Open" || filter == "Closed"
    ensures !MatchesFilter(ToCard(tx), filter)
  {
    var name := CardStatus(tx.status);
    assert name[1..] == StatusName(tx.status)[1..];
    assert StatusName(tx.status)[1..] != "pen" && StatusName(tx.status)[1..] != "losed";
    assert "Open"[1..] == "pen" && "Closed"[1..] == "losed";
  }

  /**
   * `v?.toLocaleLowerCase().includes(q)` for the three searched fields: a
   * text field matches when it contains the query, letters compared
   * without case; a missing field never matches.
   */
  predicate FieldMatches(v: JVal, query: string)
  {
    v.JStr? && Contains(Lower(v.s), Lower(query))
  }

  predicate MatchesSearch(card: Card, query: string)
  {
    FieldMatches(Get(card, "title"), query) || FieldMatches(Get(card, "id"), query)
    || FieldMatches(Get(card, "assetType"), query)
  }

  predicate Shown(card: Card, filter: string, query: string)
  {
    MatchesFilter(card, filter) && MatchesSearch(card, query)
  }

  /** `a` is `b` with some elements left out, the rest in their order. */
  predicate Sublist<T(==)>(a: seq<T>, b: seq<T>)
    decreases |b|
  {
    if a == [] then true
    else if b == [] then false
    else (a[0] == b[0] && Sublist(a[1..], b[1..])) || Sublist(a, b[1..])
  }

  /**
   * `filteredTransactions`: the cards that pass both the filter and the
   * search, in the list's order.
   */
  function Filtered(cards: seq<Card>, filter: string, query: string): (r: seq<Card>)
    ensures Sublist(r, cards)
    ensures forall c :: c in r <==> c in cards && Shown(c, filter, query)
    ensures |r| <= |cards|
  {
    if cards == [] then []
    else
      var rest := Filtered(cards[1..], filter, query);
      if Shown(cards[0], filter, query) then [cards[0]] + rest else rest
  }

  /** Every string contains the empty string. */
  lemma ContainsEmpty(s: string)
    ensures Contains(s, "")
  {
    assert StartsWith(s, "");
  }

  /**
   * With "All" and an empty search box every card that has a title, an id
   * or an asset type as text is shown; one with none of the three is not.
   */
  lemma EmptySearchShowsTextCards(card: Card)
    ensures Shown(card, "All", "") <==>
      (Get(card, "title").JStr? || Get(card, "id").JStr? || Get(card, "assetType").JStr?)
  {
    assert Lower("") == "";
    if Get(card, "title").JStr? {
      ContainsEmpty(Lower(Get(card, "title").s));
    }
    if Get(card, "id").JStr? {
      ContainsEmpty(Lower(Get(card, "id").s));
    }
    if Get(card, "assetType").JStr? {
      ContainsEmpty(Lower(Get(card, "assetType").s));
    }
  }

  /** A card made from a listed row is found by searching for its id. */
  lemma CardFoundByItsId(tx: TransactionRoutes.Summary)
    requires tx.id.Some?
    ensures MatchesSearch(ToCard(tx), tx.id.value)
  {
    var l := Lower(tx.id.value);
    assert StartsWith(l, l);
  }

  // ---------------------------------------------------------------- real-time updates

  /**
   * `prev.map(tx => tx.id === id ? { ...tx, ...patch } : tx)`: the patch is
   * merged into every card with that id; the others stay as they were.
   */
  function MergeUpdate(cards: seq<Card>, id: JVal, patch: Card): (r: seq<Card>)
    ensures |r| == |cards|
    ensures forall i :: 0 <= i < |cards| && Get(cards[i], "id") == id ==> r[i] == cards[i] + patch
    ensures forall i :: 0 <= i < |cards| && Get(cards[i], "id") != id ==> r[i] == cards[i]
  {
    seq(|cards|, i requires 0 <= i < |cards| => if Get(cards[i], "id") == id then cards[i] + patch else cards[i])
  }

  /**
   * An update that does not rename its cards can be received twice
   * without changing the list again.
   */
  lemma MergeUpdateIdempotent(cards: seq<Card>, id: JVal, patch: Card)
    requires "id" !in patch || patch["id"] == id
    ensures MergeUpdate(MergeUpdate(cards, id, patch), id, patch) == MergeUpdate(cards, id, patch)
  {
    var once := MergeUpdate(cards, id, patch);
    forall i | 0 <= i < |cards|
      ensures MergeUpdate(once, id, patch)[i] == once[i]
    {
      if Get(cards[i], "id") == id {
        assert Get(once[i], "id") == id;
        assert once[i] + patch == cards[i] + patch + patch;
        assert cards[i] + patch + patch == cards[i] + patch;
      } else {
        assert once[i] == cards[i];
      }
    }
  }

  /** The page's list state. */
  class Page {
    var transactions: seq<Card>
    var filter: string
    var search: string

    constructor ()
      ensures transactions == [] && filter == "All" && search == ""
    {
      transactions := [];
      filter := "All";
      search := "";
    }

    /** The cards on show. */
    function Visible(): (r: seq<Card>)
      reads this
      ensures Sublist(r, transactions)
    {
      Filtered(transactions, filter, search)
    }

    /**
     * `fetchTransactions`: the listing's rows become the cards. A failed
     * request (`None`) leaves the list as it was, and so does a row whose
     * amount is NaN: it reaches the page as `null`, `toLocaleString` throws
     * inside the `try`, and the catch only logs.
     */
    method Load(rows: Option<seq<TransactionRoutes.Summary>>)
      modifies this
      ensures rows.Some? && AllAmounts(rows.value) ==> transactions == ToCards(rows.value)
      ensures !(rows.Some? && AllAmounts(rows.value)) ==> transactions == old(transactions)
      ensures filter == old(filter) && search == old(search)
    {
      if rows.Some? && AllAmounts(rows.value) {
        transactions := ToCards(rows.value);
      }
    }

    /** The filter select and the search box. */
    method SetFilter(value: string)
      modifies this
      ensures filter == value && transactions == old(transactions) && search == old(search)
    {
      filter := value;
    }

    method SetSearch(value: string)
      modifies this
      ensures search == value && transactions == old(transactions) && filter == old(filter)
    {
      search := value;
    }

    /**
     * `transaction-created`: the event's transaction goes first, as sent;
     * it is shown first exactly when it passes the filter and search.
     */
    method Created(transaction: Card)
      modifies this
      ensures transactions == [transaction] + old(transactions)
      ensures filter == old(filter) && search == old(search)
      ensures Shown(transaction, filter, search) ==> Visible() == [transaction] + old(Visible())
      ensures !Shown(transaction, filter, search) ==> Visible() == old(Visible())
    {
      transactions := [transaction] + transactions;
      assert transactions[1..] == old(transactions);
    }

    /** `transaction-updated`: the patch is merged into the cards with the event's id. */
    method Updated(transactionId: JVal, transaction: Card)
      modifies this
      ensures transactions == MergeUpdate(old(transactions), transactionId, transaction)
      ensures filter == old(filter) && search == old(search)
    {
      transactions := MergeUpdate(transactions, transactionId, transaction);
    }
  }
}
