/**
 * The payload decoder table (`PayloadDecoderTableComponent`).
 *
 * The component keeps a page offset that `prevPage` and `nextPage` step by
 * one, bounded below by 0 and above by `pageTotal`, and refetches the
 * decoder list after every navigation, on start-up, on every input change
 * and after a successful delete. The fetch itself takes no arguments: it
 * asks for the whole list whatever the offset and the page limit are.
 */
module PayloadDecoderTable {
  import opened Common

  /** `prevPage`'s step: a non-zero (truthy) offset goes back by one. */
  function PrevOffset(offset: int): (r: int)
    ensures offset == 0 ==> r == 0
    ensures offset > 0 ==> 0 <= r < offset
    ensures offset != 0 ==> r == offset - 1
  {
    if offset != 0 then offset - 1 else offset
  }

  /**
   * `nextPage`'s step: forward by one while below the total. While the
   * total is `undefined`, `offset < pageTotal` is false.
   */
  function NextOffset(offset: int, total: Option<int>): (r: int)
    ensures offset <= r <= offset + 1
    ensures r == offset + 1 <==> total.Some? && offset < total.value
    ensures total.Some? && offset < total.value ==> r <= total.value
  {
    if total.Some? && offset < total.value then offset + 1 else offset
  }

  /** The offsets the component can hold: 0, or a positive offset no greater than a known total. */
  ghost predicate InRange(offset: int, total: Option<int>)
  {
    offset == 0 || (0 < offset && total.Some? && offset <= total.value)
  }

  /** `prevPage` never goes below 0: at 0 it stays, otherwise it steps back exactly one. */
  lemma PrevOffsetStep(offset: int, total: Option<int>)
    requires InRange(offset, total)
    ensures offset == 0 ==> PrevOffset(offset) == 0
    ensures offset > 0 ==> PrevOffset(offset) == offset - 1
    ensures InRange(PrevOffset(offset), total)
  {
  }

  /**
   * `nextPage` steps forward exactly one while below the total and never
   * passes it; with no total it stays put.
   */
  lemma NextOffsetStep(offset: int, total: Option<int>)
    requires InRange(offset, total)
    ensures total.None? ==> NextOffset(offset, total) == offset
    ensures total.Some? && offset < total.value ==> NextOffset(offset, total) == offset + 1
    ensures total.Some? && offset >= total.value ==> NextOffset(offset, total) == offset
    ensures InRange(NextOffset(offset, total), total)
  {
  }

  /** Within the range, `prevPage` undoes `nextPage` and `nextPage` undoes `prevPage`. */
  lemma PrevNextInverse(offset: int, total: int)
    ensures 0 <= offset < total ==> PrevOffset(NextOffset(offset, Some(total))) == offset
    ensures 0 < offset <= total ==> NextOffset(PrevOffset(offset), Some(total)) == offset
  {
  }

  /** A click on one of the two navigation buttons. */
  datatype Move = Prev | Next

  /** The offset after a sequence of clicks, with the total fixed: each click moves it by at most one. */
  function Navigate(offset: int, total: Option<int>, moves: seq<Move>): (r: int)
    ensures offset - |moves| <= r <= offset + |moves|
    decreases |moves|
  {
    if moves == [] then offset
    else
      var next := match moves[0] case Prev => PrevOffset(offset) case Next => NextOffset(offset, total);
      Navigate(next, total, moves[1..])
  }

  /** No sequence of clicks leaves the range. */
  lemma {:induction false} NavigateStaysInRange(offset: int, total: Option<int>, moves: seq<Move>)
    requires InRange(offset, total)
    ensures InRange(Navigate(offset, total, moves), total)
    ensures Navigate(offset, total, moves) >= 0
    decreases |moves|
  {
    if moves != [] {
      PrevOffsetStep(offset, total);
      NextOffsetStep(offset, total);
      var next := match moves[0] case Prev => PrevOffset(offset) case Next => NextOffset(offset, total);
      NavigateStaysInRange(next, total, moves[1..]);
    }
  }

  /** While the total is unset, no sequence of clicks moves the offset off 0. */
  lemma {:induction false} NavigateWithoutTotalStaysAtZero(moves: seq<Move>)
    ensures Navigate(0, None, moves) == 0
    decreases |moves|
  {
    if moves != [] {
      NavigateWithoutTotalStaysAtZero(moves[1..]);
    }
  }

  /**
   * The component, over decoders of type D. Its fields are updated in place
   * by the lifecycle hooks, the navigation buttons and the HTTP answers.
   */
  class PayloadDecoderTableComponent<D> {
    /** The `pageLimit` input: set by the parent, read by nothing here. */
    var pageLimit: Option<int>
    var payloadDecoders: Option<seq<D>>
    var pageOffset: int
    /** Never assigned by this component. */
    var pageTotal: Option<int>
    /** How many `getMultiple()` calls have been made; the call has no arguments. */
    var fetches: nat
    /** The decoder ids sent to the delete endpoint, oldest first. */
    var deleteRequests: seq<int>

    ghost predicate Valid()
      reads this
    {
      InRange(pageOffset, pageTotal)
    }

    constructor (pageLimit: Option<int>)
      ensures Valid() && this.pageLimit == pageLimit && payloadDecoders.None?
      ensures pageOffset == 0 && pageTotal.None? && fetches == 0 && deleteRequests == []
    {
      this.pageLimit := pageLimit;
      payloadDecoders := None;
      pageOffset := 0;
      pageTotal := None;
      fetches := 0;
      deleteRequests := [];
    }

    /** `ngOnInit`: fetch the list. */
    method NgOnInit()
      modifies this`fetches
      ensures fetches == old(fetches) + 1
    {
      GetPayloadDecoders();
    }

    /** `getPayloadDecoders`: one argument-less list request; the offset and the limit are not read. */
    method GetPayloadDecoders()
      modifies this`fetches
      ensures fetches == old(fetches) + 1
    {
      fetches := fetches + 1;
    }

    /**
     * The subscriber of a list request: a body replaces the list. An error
     * has no handler and changes nothing.
     */
    method OnPayloadDecoders(result: FetchResult<D>)
      modifies this`payloadDecoders
      ensures payloadDecoders == if result.Success? then Some(result.body.data) else old(payloadDecoders)
    {
      if result.Success? {
        payloadDecoders := Some(result.body.data);
      }
    }

    /** `ngOnChanges`: the parent has set the inputs; always refetch. */
    method NgOnChanges(newPageLimit: Option<int>)
      modifies this`pageLimit, this`fetches
      ensures pageLimit == newPageLimit && fetches == old(fetches) + 1
    {
      pageLimit := newPageLimit;
      GetPayloadDecoders();
    }

    /** `deletePayloadDecoder`: send the delete; `OnDeleteResponse` receives its answer. */
    method DeletePayloadDecoder(id: int)
      modifies this`deleteRequests
      ensures deleteRequests == old(deleteRequests) + [id]
    {
      deleteRequests := deleteRequests + [id];
    }

    /** The delete's answer: refetch only when it is ok. */
    method OnDeleteResponse(ok: bool)
      modifies this`fetches
      ensures fetches == old(fetches) + (if ok then 1 else 0)
    {
      if ok {
        GetPayloadDecoders();
      }
    }

    /** `prevPage`: step back unless at 0, then refetch whether or not the offset moved. */
    method PrevPage()
      requires Valid()
      modifies this`pageOffset, this`fetches
      ensures Valid()
      ensures pageOffset == PrevOffset(old(pageOffset)) && pageOffset >= 0
      ensures fetches == old(fetches) + 1
    {
      PrevOffsetStep(pageOffset, pageTotal);
      if pageOffset != 0 {
        pageOffset := pageOffset - 1;
      }
      GetPayloadDecoders();
    }

    /** `nextPage`: step forward while below the total, then refetch whether or not the offset moved. */
    method NextPage()
      requires Valid()
      modifies this`pageOffset, this`fetches
      ensures Valid()
      ensures pageOffset == NextOffset(old(pageOffset), pageTotal)
      ensures pageTotal.None? ==> pageOffset == old(pageOffset)
      ensures fetches == old(fetches) + 1
    {
      NextOffsetStep(pageOffset, pageTotal);
      if pageTotal.Some? && pageOffset < pageTotal.value {
        pageOffset := pageOffset + 1;
      }
      GetPayloadDecoders();
    }
  }
}
