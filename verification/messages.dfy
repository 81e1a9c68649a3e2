/** Conversation messages, tool calls and the structured response the model
    fills in to answer the customer. */
module Messages {
  import opened Wrappers
  import opened Errors
  import opened Json

  /** Keyword arguments of a tool call, already decoded from JSON. */
  type Args = map<string, Value>

  datatype ToolCall = ToolCall(id: string, name: string, args: Args)

  /** LangChain's message kinds as the graph sees them: the human turn, the
      model's reply with the tool calls it requests, and a tool result that
      answers one of those calls by id. */
  datatype Message =
    | Human(content: string)
    | Ai(content: string, toolCalls: seq<ToolCall>)
    | ToolResult(content: string, toolCallId: string, name: string)

  /** The structured answer: what to show the customer, and whether the
      conversation ends after it. */
  datatype LLMResponse = LLMResponse(message: string, endConversation: bool)

  /** The instruction both front ends open a conversation with, in place
      of a first customer line. */
  const GreetingInstruction := "*Greet the customer*"

  const MessageField := "message"
  const EndConversationField := "end_conversation"

  /** The fields of a response as keyword arguments or JSON members. */
  function ResponseFields(r: LLMResponse): Args {
    map[MessageField := Str(r.message), EndConversationField := Bool(r.endConversation)]
  }

  /** `LLMResponse(**fields)`: both fields must be present with the right
      type; any other field is ignored. */
  function ResponseFromFields(fields: Args): (r: Result<LLMResponse, Error>)
    ensures r.Ok? <==>
      && MessageField in fields && fields[MessageField].Str?
      && EndConversationField in fields && fields[EndConversationField].Bool?
    ensures r.Ok? ==> forall k | k in ResponseFields(r.value) :: k in fields && fields[k] == ResponseFields(r.value)[k]
    ensures r.Err? ==> r.error.ValidationError?
  {
    if MessageField !in fields then Err(ValidationError("message: field required"))
    else if !fields[MessageField].Str? then Err(ValidationError("message: input should be a valid string"))
    else if EndConversationField !in fields then Err(ValidationError("end_conversation: field required"))
    else if !fields[EndConversationField].Bool? then Err(ValidationError("end_conversation: input should be a valid boolean"))
    else Ok(LLMResponse(fields[MessageField].s, fields[EndConversationField].b))
  }

  /** Building a response from its own fields gives it back. */
  lemma FieldsRoundTrip(r: LLMResponse)
    ensures ResponseFromFields(ResponseFields(r)) == Ok(r)
  {
  }

  /** JSON members collected into keyword arguments; a repeated key keeps
      its last value, as a Python dict built from the document does. */
  function MembersToArgs(ms: seq<Member>): (a: Args)
    ensures forall k | k in a :: exists i | 0 <= i < |ms| :: ms[i].0 == k && ms[i].1 == a[k]
    ensures forall i | 0 <= i < |ms| :: ms[i].0 in a
  {
    if |ms| == 0 then map[]
    else MembersToArgs(ms[..|ms| - 1])[ms[|ms| - 1].0 := ms[|ms| - 1].1]
  }

  /** `LLMResponse(...).model_dump_json()`: the two fields in declaration
      order, compact. */
  function SerialiseResponse(r: LLMResponse): string {
    EncodeObject(ResponseMembers(r))
  }

  /** `LLMResponse.model_validate_json(text)`. */
  function ParseResponse(text: string): (r: Result<LLMResponse, Error>)
    ensures r.Err? ==> r.error.ValidationError?
  {
    match ParseObject(text)
    case None => Err(ValidationError("invalid JSON"))
    case Some(ms) => ResponseFromFields(MembersToArgs(ms))
  }

  /** A serialised response parses back to the same message and flag. */
  lemma ResponseRoundTrip(r: LLMResponse)
    ensures ParseResponse(SerialiseResponse(r)) == Ok(r)
  {
    var ms := ResponseMembers(r);
    ObjectRoundTrip(ms);
    assert ParseObject(SerialiseResponse(r)) == Some(ms);
    MembersOfResponse(r);
    FieldsRoundTrip(r);
  }

  function ResponseMembers(r: LLMResponse): seq<Member> {
    [(MessageField, Str(r.message)), (EndConversationField, Bool(r.endConversation))]
  }

  lemma MembersOfResponse(r: LLMResponse)
    ensures MembersToArgs(ResponseMembers(r)) == ResponseFields(r)
  {
    var ms := ResponseMembers(r);
    assert ms[..1] == [ms[0]];
    assert ms[..1][..0] == [];
  }
}

/** The menu and order services the tools delegate to. Their code is not
    part of this model: the menu is an opaque value handed back as it is,
    and the order service is the log of the orders it was asked to
    create. */
module Services {

  /** Category to item names, as `get_menu` returns it. */
  type Menu = map<string, seq<string>>

  datatype Order = Order(tableNumber: int, items: seq<string>)

  datatype Services = Services(menu: Menu, orders: seq<Order>)

  /** A freshly constructed pair of services: no orders yet. */
  function Fresh(menu: Menu): Services {
    Services(menu, [])
  }

  /** What both `create_order` tools answer once the order is recorded. */
  const OrderPlaced := "Order placed"

  /** `order_service.create_order(table_number, order_items)`. */
  function RecordOrder(svc: Services, tableNumber: int, items: seq<string>): Services {
    svc.(orders := svc.orders + [Order(tableNumber, items)])
  }
}
