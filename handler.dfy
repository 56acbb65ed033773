/**
 * The `POST /generate-trip-plan` handler: three reads from the data store in order
 * (activities, restaurants, hotels), each of which ends the request with a 500 on
 * error, then one call to the completion service whose first choice is the plan.
 * The data store and the completion service are oracles the handler consults; a
 * log of the calls made shows which of them were consulted and in what order.
 */
module Handler {
  import opened Wrappers
  import opened Js
  import opened Catalog
  import opened Prompt
  import opened Config

  /** What `await supabase.from(...).select(...).ilike(...)` yields: `{data}` or `{error}`. */
  datatype ReadResult = Rows(data: Option<seq<Row>>) | ReadError

  datatype Choice = Choice(content: JsValue)

  /** A completion with its choices, or a rejected call (the `await` throws). */
  datatype CompletionResult = Completed(choices: seq<Choice>) | CompletionFailed

  datatype Call = SelectCall(table: Category, pattern: string) | CompleteCall(messages: seq<Message>)

  datatype Body = Plan(plan: JsValue) | Error(error: string)

  datatype Response = Response(status: int, body: Body)

  /** The `ilike` pattern: the province anywhere in the column. */
  function Pattern(province: JsValue): (p: string)
    ensures |p| == |Text(province)| + 2 && p[0] == '%' && p[|p| - 1] == '%'
    ensures Occurs(Text(province), p, 1)
  {
    OccursBetween("%", Text(province), "%");
    "%" + Text(province) + "%"
  }

  /** The response of a failed read: 500 with a message naming the category. */
  function FetchFailure(c: Category): (r: Response)
    ensures r.status == 500 && r.body.Error? && r != ServerError
  {
    match c
    case Activities => Response(500, Error("Failed to fetch activities"))
    case Restaurants => Response(500, Error("Failed to fetch restaurants"))
    case Hotels => Response(500, Error("Failed to fetch hotels"))
  }

  /** The response when anything inside the handler throws. */
  const ServerError: Response := Response(500, Error("Server Error"))

  /** The three read failures tell apart from each other. */
  lemma FailuresDistinguishable(c: Category, c': Category)
    ensures c != c' ==> FetchFailure(c) != FetchFailure(c')
  {
  }

  /**
   * `res.status(200).json({plan: completion.choices[0].message.content})`, inside the
   * `try`: with no choices, `choices[0].message` throws, and the `catch` answers 500.
   */
  function PlanResponse(c: CompletionResult): (r: Response)
    ensures r.status == 200 <==> c.Completed? && |c.choices| > 0
    ensures r.status == 200 ==> r.body == Plan(c.choices[0].content)
    ensures r.status != 200 ==> r == ServerError
  {
    if c.Completed? && |c.choices| > 0 then Response(200, Plan(c.choices[0].content)) else ServerError
  }

  /**
   * The server's clients, built once at startup from credentials that passed the
   * startup gate, with the data store snapshot and completion service they reach.
   */
  class Backend {
    /** Records that the clients were built from credentials the startup gate accepted; nothing reads it. */
    const credentials: Credentials
    const store: (Category, string) -> ReadResult
    const completer: seq<Message> -> CompletionResult
    /** Every call made to the data store or the completion service, oldest first. */
    ghost var calls: seq<Call>

    constructor (credentials: Credentials, store: (Category, string) -> ReadResult, completer: seq<Message> -> CompletionResult)
      requires credentials.Valid()
      ensures this.credentials == credentials && this.store == store && this.completer == completer
      ensures calls == []
    {
      this.credentials := credentials;
      this.store := store;
      this.completer := completer;
      calls := [];
    }

    /** One filtered read of a category's table. */
    method Select(c: Category, pattern: string) returns (r: ReadResult)
      modifies this
      ensures r == store(c, pattern)
      ensures calls == old(calls) + [SelectCall(c, pattern)]
    {
      r := store(c, pattern);
      calls := calls + [SelectCall(c, pattern)];
    }

    /** One chat-completion call. */
    method Complete(messages: seq<Message>) returns (r: CompletionResult)
      modifies this
      ensures r == completer(messages)
      ensures calls == old(calls) + [CompleteCall(messages)]
    {
      r := completer(messages);
      calls := calls + [CompleteCall(messages)];
    }

    /**
     * Handles one request. A failed read answers 500 naming its category and issues
     * no later read and no completion; when all three reads succeed, even with no
     * rows, the completion service is called exactly once with the catalog prompt,
     * and its first choice's content is the plan.
     */
    method GenerateTripPlan(req: TripRequest) returns (resp: Response)
      modifies this
      ensures var p := Pattern(req.province);
        var a, r, h := store(Activities, p), store(Restaurants, p), store(Hotels, p);
        && (a.ReadError? ==>
              resp == FetchFailure(Activities) &&
              calls == old(calls) + [SelectCall(Activities, p)])
        && (a.Rows? && r.ReadError? ==>
              resp == FetchFailure(Restaurants) &&
              calls == old(calls) + [SelectCall(Activities, p), SelectCall(Restaurants, p)])
        && (a.Rows? && r.Rows? && h.ReadError? ==>
              resp == FetchFailure(Hotels) &&
              calls == old(calls) + [SelectCall(Activities, p), SelectCall(Restaurants, p), SelectCall(Hotels, p)])
        && (a.Rows? && r.Rows? && h.Rows? ==>
              var m := CatalogMessages(req, a.data, r.data, h.data);
              resp == PlanResponse(completer(m)) &&
              calls == old(calls) + [SelectCall(Activities, p), SelectCall(Restaurants, p), SelectCall(Hotels, p), CompleteCall(m)])
    {
      var p := Pattern(req.province);
      ghost var before := calls;
      var activities := Select(Activities, p);
      if activities.ReadError? {
        return FetchFailure(Activities);
      }
      var restaurants := Select(Restaurants, p);
      assert calls == before + [SelectCall(Activities, p), SelectCall(Restaurants, p)];
      if restaurants.ReadError? {
        return FetchFailure(Restaurants);
      }
      var hotels := Select(Hotels, p);
      assert calls == before + [SelectCall(Activities, p), SelectCall(Restaurants, p), SelectCall(Hotels, p)];
      if hotels.ReadError? {
        return FetchFailure(Hotels);
      }
      var messages := CatalogMessages(req, activities.data, restaurants.data, hotels.data);
      var completion := Complete(messages);
      resp := PlanResponse(completion);
    }
  }
}
