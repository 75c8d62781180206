/**
 * The redemption page: an operator enters a ticket code, the ticketing service
 * answers with the add-on items of that ticket, and the operator marks items as
 * used one at a time. HTTP requests are not made here: each handler takes the
 * service's answer as a parameter. A handler that awaits a request is split in
 * two at the await (Begin…/Complete…), so the state the page shows while the
 * request is in flight is part of the model; the one-piece handler calls both.
 */
module Redemption {

  import opened Wrappers
  import TicketCode

  type OrderId = string

  /** One redeemable add-on of a ticket, as the service lists it (`title` is its `label`). */
  datatype Item = Item(orderId: OrderId, value: string, title: string, isUsed: bool)

  /** The JSON body of a service answer. */
  datatype Body = Body(isSuccess: bool, message: string, data: Option<seq<Item>>)

  /** A request either gets an answer, or axios throws with an error message. */
  datatype Outcome = Reply(body: Body) | Thrown(message: string)

  const EmptyInputError := "Lütfen bir QR Kod değeri girin"
  const NoDataError := "Veri alınamadı"
  const UseFailedError := "İşlem başarısız oldu"
  const ApiErrorPrefix := "API hatası: "

  /**
   * JavaScript's `message || fallback` for a message that may be missing (""):
   * the service's own message when it gave one, and never an empty error when
   * the fallback is not empty.
   */
  function OrElse(message: string, fallback: string): (r: string)
    ensures r == message || r == fallback
    ensures |message| > 0 ==> r == message
    ensures |r| > 0 <==> |message| > 0 || |fallback| > 0
  {
    if message != "" then message else fallback
  }

  /** `items.filter(item => item.isUsed).map(item => item.orderId)`. */
  function UsedIds(items: seq<Item>): (r: seq<OrderId>)
    ensures |r| <= |items|
  {
    if items == [] then []
    else (if items[0].isUsed then [items[0].orderId] else []) + UsedIds(items[1..])
  }

  /** An id is reported used exactly when some used item carries it. */
  lemma {:induction false} UsedIdsMembership(items: seq<Item>, id: OrderId)
    ensures id in UsedIds(items) <==>
            exists i :: 0 <= i < |items| && items[i].isUsed && items[i].orderId == id
  {
    if items != [] {
      UsedIdsMembership(items[1..], id);
      if id in UsedIds(items[1..]) {
        var i :| 0 <= i < |items[1..]| && items[1..][i].isUsed && items[1..][i].orderId == id;
        assert items[i + 1] == items[1..][i];
      }
      if exists i :: 0 <= i < |items| && items[i].isUsed && items[i].orderId == id {
        var i :| 0 <= i < |items| && items[i].isUsed && items[i].orderId == id;
        if i > 0 { assert items[1..][i - 1] == items[i]; }
      }
    }
  }

  /**
   * The used ids keep the order of the list: those of a concatenation are
   * those of the first part followed by those of the second.
   */
  lemma {:induction false} UsedIdsAppend(a: seq<Item>, b: seq<Item>)
    ensures UsedIds(a + b) == UsedIds(a) + UsedIds(b)
  {
    if a == [] {
      assert a + b == b;
    } else {
      assert (a + b)[0] == a[0] && (a + b)[1..] == a[1..] + b;
      UsedIdsAppend(a[1..], b);
    }
  }

  /** A single item contributes its id exactly when it is used. */
  lemma UsedIdsSingle(it: Item)
    ensures UsedIds([it]) == if it.isUsed then [it.orderId] else []
  {
    assert [it][1..] == [];
  }

  /** `ids.filter(x => x !== id)`. */
  function Without(ids: seq<OrderId>, id: OrderId): (r: seq<OrderId>)
    ensures |r| <= |ids|
    ensures id !in r
  {
    if ids == [] then []
    else (if ids[0] == id then [] else [ids[0]]) + Without(ids[1..], id)
  }

  /** Removing an id keeps every other id and nothing else. */
  lemma {:induction false} WithoutMembership(ids: seq<OrderId>, id: OrderId, x: OrderId)
    ensures x in Without(ids, id) <==> x in ids && x != id
  {
    if ids != [] {
      WithoutMembership(ids[1..], id, x);
      assert ids == [ids[0]] + ids[1..];
    }
  }

  /** Removing an id that is absent changes nothing. */
  lemma {:induction false} WithoutAbsent(ids: seq<OrderId>, id: OrderId)
    requires id !in ids
    ensures Without(ids, id) == ids
  {
    if ids != [] {
      WithoutAbsent(ids[1..], id);
    }
  }

  /** Removal keeps the order of the remaining ids. */
  lemma {:induction false} WithoutAppend(a: seq<OrderId>, b: seq<OrderId>, id: OrderId)
    ensures Without(a + b, id) == Without(a, id) + Without(b, id)
  {
    if a == [] {
      assert a + b == b;
    } else {
      assert (a + b)[0] == a[0] && (a + b)[1..] == a[1..] + b;
      WithoutAppend(a[1..], b, id);
    }
  }

  /**
   * Filtering the snapshot taken before the id was appended gives the same
   * list as filtering the list with the id appended.
   */
  lemma WithoutAppended(ids: seq<OrderId>, id: OrderId)
    ensures Without(ids + [id], id) == Without(ids, id)
  {
    WithoutAppend(ids, [id], id);
    assert [id][1..] == [];
  }

  /** What an item's button shows. */
  datatype ButtonStatus = Used | Processing | Available

  /** "Used" wins over "processing"; an item in neither list is available. */
  function Status(used: seq<OrderId>, processing: seq<OrderId>, id: OrderId): (r: ButtonStatus)
    ensures r.Used? <==> id in used
    ensures r.Processing? <==> id !in used && id in processing
    ensures r.Available? <==> id !in used && id !in processing
  {
    if id in used then Used else if id in processing then Processing else Available
  }

  /** The button caption for each status. */
  function Caption(s: ButtonStatus): (r: string)
    ensures s.Used? <==> r == "Kullanıldı"
    ensures s.Processing? <==> r == "İşleniyor..."
    ensures s.Available? <==> r == "Kullan"
  {
    match s
    case Used => "Kullanıldı"
    case Processing => "İşleniyor..."
    case Available => "Kullan"
  }

  /** The button is disabled exactly when its status is not "available". */
  function Disabled(used: seq<OrderId>, processing: seq<OrderId>, id: OrderId): (r: bool)
    ensures r <==> !Status(used, processing, id).Available?
  {
    id in used || id in processing
  }

  /** The closure state a use handler captured when it started. */
  datatype UseEntry = UseEntry(orderId: OrderId, used: seq<OrderId>, processing: seq<OrderId>)

  /** The page's state fields. */
  class Kiosk {
    var inputText: string
    var qrCode: string
    var error: Option<string>
    var usedItems: seq<OrderId>
    var loading: bool
    var apiResponse: Option<Body>
    var items: seq<Item>
    var processingItems: seq<OrderId>

    /** The page as first rendered. */
    constructor ()
      ensures inputText == "" && qrCode == "" && error == None && usedItems == []
      ensures !loading && apiResponse == None && items == [] && processingItems == []
    {
      inputText, qrCode, error, usedItems := "", "", None, [];
      loading, apiResponse, items, processingItems := false, None, [], [];
    }

    /** The input box's onChange. */
    method Edit(text: string)
      modifies this
      ensures inputText == text
      ensures qrCode == old(qrCode) && error == old(error) && usedItems == old(usedItems)
      ensures loading == old(loading) && apiResponse == old(apiResponse)
      ensures items == old(items) && processingItems == old(processingItems)
    {
      inputText := text;
    }

    /**
     * handleSubmit up to its request. A blank input only sets the error and
     * no request is made (`request == None`); otherwise the normalised code is
     * recorded and sent, the error cleared and the spinner shown.
     */
    method BeginSubmit() returns (request: Option<string>)
      modifies this
      ensures request == TicketCode.Accept(old(inputText))
      ensures request.None? ==>
                && error == Some(EmptyInputError)
                && qrCode == old(qrCode) && loading == old(loading)
      ensures request.Some? ==> qrCode == request.value && error == None && loading
      ensures inputText == old(inputText) && usedItems == old(usedItems)
      ensures apiResponse == old(apiResponse)
      ensures items == old(items) && processingItems == old(processingItems)
    {
      request := TicketCode.Accept(inputText);
      match request {
        case None =>
          error := Some(EmptyInputError);
        case Some(code) =>
          qrCode, error, loading := code, None, true;
      }
    }

    /**
     * handleSubmit after its request. A successful answer with data replaces
     * the items and derives the used ids from them; any other answer or a
     * thrown request sets the error and keeps the items. The spinner always
     * goes away.
     */
    method CompleteSubmit(outcome: Outcome, shouldClear: bool)
      modifies this
      ensures !loading
      ensures apiResponse == (if outcome.Reply? then Some(outcome.body) else old(apiResponse))
      ensures (outcome.Reply? && outcome.body.isSuccess && outcome.body.data.Some?) ==>
                && items == outcome.body.data.value
                && usedItems == UsedIds(outcome.body.data.value)
                && error == old(error)
      ensures !(outcome.Reply? && outcome.body.isSuccess && outcome.body.data.Some?) ==>
                && items == old(items) && usedItems == old(usedItems)
                && error == Some(match outcome
                                 case Reply(body) => OrElse(body.message, NoDataError)
                                 case Thrown(m) => ApiErrorPrefix + m)
      ensures inputText == (if shouldClear then "" else old(inputText))
      ensures qrCode == old(qrCode) && processingItems == old(processingItems)
    {
      match outcome {
        case Reply(body) =>
          apiResponse := Some(body);
          if body.isSuccess && body.data.Some? {
            items := body.data.value;
            usedItems := UsedIds(body.data.value);
          } else {
            error := Some(OrElse(body.message, NoDataError));
          }
        case Thrown(m) =>
          error := Some(ApiErrorPrefix + m);
      }
      loading := false;
      if shouldClear {
        inputText := "";
      }
    }

    /** handleSubmit as one sequential step; `outcome` answers the request if one is made. */
    method Submit(outcome: Outcome, shouldClear: bool) returns (request: Option<string>)
      modifies this
      ensures request.None? <==> TicketCode.Blank(old(inputText))
      ensures request.None? ==>
                && error == Some(EmptyInputError) && inputText == old(inputText)
                && qrCode == old(qrCode) && loading == old(loading)
                && items == old(items) && usedItems == old(usedItems)
                && apiResponse == old(apiResponse)
      ensures request.Some? ==>
                && request.value == TicketCode.Normalize(old(inputText))
                && qrCode == request.value && !loading
                && inputText == (if shouldClear then "" else old(inputText))
      ensures request.Some? ==>
                apiResponse == (if outcome.Reply? then Some(outcome.body) else old(apiResponse))
      ensures request.Some? && outcome.Reply? && outcome.body.isSuccess && outcome.body.data.Some? ==>
                items == outcome.body.data.value && usedItems == UsedIds(items) && error == None
      ensures request.Some? && !(outcome.Reply? && outcome.body.isSuccess && outcome.body.data.Some?) ==>
                && items == old(items) && usedItems == old(usedItems)
                && error == Some(match outcome
                                 case Reply(body) => OrElse(body.message, NoDataError)
                                 case Thrown(m) => ApiErrorPrefix + m)
      ensures request.Some? && outcome.Reply? && outcome.body.isSuccess && outcome.body.data.Some? ==>
                (ListShown() <==> |outcome.body.data.value| > 0)
      ensures processingItems == old(processingItems)
    {
      request := BeginSubmit();
      if request.Some? {
        CompleteSubmit(outcome, shouldClear);
      }
    }

    /**
     * handleUseItem up to its request: the item joins the processing list.
     * The returned entry is what the handler's closure holds from then on.
     */
    method BeginUse(orderId: OrderId) returns (entry: UseEntry)
      modifies this
      ensures entry == UseEntry(orderId, old(usedItems), old(processingItems))
      ensures processingItems == old(processingItems) + [orderId]
      ensures inputText == old(inputText) && qrCode == old(qrCode) && error == old(error)
      ensures usedItems == old(usedItems) && loading == old(loading)
      ensures apiResponse == old(apiResponse) && items == old(items)
    {
      entry := UseEntry(orderId, usedItems, processingItems);
      processingItems := processingItems + [orderId];
    }

    /**
     * handleUseItem after its request. On success the id is appended to the
     * used list the handler captured; otherwise the used list is untouched and
     * the error is set. Either way the processing list becomes the captured one
     * with every occurrence of the id removed.
     */
    method CompleteUse(entry: UseEntry, outcome: Outcome)
      modifies this
      ensures outcome.Reply? && outcome.body.isSuccess ==>
                usedItems == entry.used + [entry.orderId] && error == old(error)
      ensures !(outcome.Reply? && outcome.body.isSuccess) ==>
                && usedItems == old(usedItems)
                && error == Some(match outcome
                                 case Reply(body) => OrElse(body.message, UseFailedError)
                                 case Thrown(m) => ApiErrorPrefix + m)
      ensures processingItems == Without(entry.processing, entry.orderId)
      ensures inputText == old(inputText) && qrCode == old(qrCode) && loading == old(loading)
      ensures apiResponse == old(apiResponse) && items == old(items)
    {
      match outcome {
        case Reply(body) =>
          if body.isSuccess {
            usedItems := entry.used + [entry.orderId];
          } else {
            error := Some(OrElse(body.message, UseFailedError));
          }
        case Thrown(m) =>
          error := Some(ApiErrorPrefix + m);
      }
      processingItems := Without(entry.processing, entry.orderId);
    }

    /**
     * handleUseItem as one sequential step. While its request is in flight the
     * item's button shows "processing" unless the item is already used.
     */
    method UseItem(orderId: OrderId, outcome: Outcome)
      modifies this
      ensures outcome.Reply? && outcome.body.isSuccess ==>
                usedItems == old(usedItems) + [orderId] && error == old(error)
      ensures !(outcome.Reply? && outcome.body.isSuccess) ==>
                && usedItems == old(usedItems)
                && error == Some(match outcome
                                 case Reply(body) => OrElse(body.message, UseFailedError)
                                 case Thrown(m) => ApiErrorPrefix + m)
      ensures processingItems == Without(old(processingItems), orderId)
      ensures outcome.Reply? && outcome.body.isSuccess ==> Status(usedItems, processingItems, orderId).Used?
      ensures inputText == old(inputText) && qrCode == old(qrCode) && loading == old(loading)
      ensures apiResponse == old(apiResponse) && items == old(items)
    {
      var entry := BeginUse(orderId);
      assert orderId !in old(usedItems) ==> Status(usedItems, processingItems, orderId).Processing?;
      CompleteUse(entry, outcome);
    }

    /** handleClear: the lookup is forgotten; used and processing ids are kept. */
    method Clear()
      modifies this
      ensures inputText == "" && qrCode == "" && error == None
      ensures apiResponse == None && items == []
      ensures usedItems == old(usedItems) && processingItems == old(processingItems)
      ensures loading == old(loading)
      ensures !ListShown()
    {
      inputText := "";
      qrCode := "";
      error := None;
      apiResponse := None;
      items := [];
    }

    /** The item list is rendered only for a recorded code with at least one item. */
    predicate ListShown()
      reads this
    {
      qrCode != "" && |items| > 0
    }
  }
}
