/** The three tools the LangChain agents bind: `get_menu`, `create_order`
    and the structured-response pseudo-tool `respond_to_user`. The
    class-based tools and the function tools behave alike, so both are
    modelled by one dispatch. */
module Tools {
  import opened Wrappers
  import opened Errors
  import opened Json
  import opened Messages
  import opened Services
  import opened Text

  datatype ToolKind = GetMenuTool | CreateOrderTool | RespondToUserTool

  /** The name each tool is registered and dispatched under. */
  function ToolName(k: ToolKind): string {
    match k
    case GetMenuTool => "get_menu"
    case CreateOrderTool => "create_order"
    case RespondToUserTool => "respond_to_user"
  }

  const RespondToUserName := ToolName(RespondToUserTool)

  /** Dispatch by name: a name selects the tool registered under it, and
      only that one. */
  function ToolByName(name: string): (r: Option<ToolKind>)
    ensures forall k :: r == Some(k) <==> name == ToolName(k)
  {
    if name == "get_menu" then Some(GetMenuTool)
    else if name == "create_order" then Some(CreateOrderTool)
    else if name == "respond_to_user" then Some(RespondToUserTool)
    else None
  }

  /** The names are pairwise distinct, so they are usable as dispatch keys. */
  lemma ToolNamesDistinct(a: ToolKind, b: ToolKind)
    ensures ToolName(a) == ToolName(b) <==> a == b
  {
    assert ToolByName(ToolName(a)) == Some(a);
  }

  /** What a tool hands back to the model. */
  datatype ToolOutput = MenuOutput(menu: Menu) | TextOutput(text: string)

  /** `respond_to_user`'s run: the response serialised, no service touched. */
  function RespondToUser(message: string, endConversation: bool): (out: string)
    ensures ParseResponse(out) == Ok(LLMResponse(message, endConversation))
  {
    ResponseRoundTrip(LLMResponse(message, endConversation));
    SerialiseResponse(LLMResponse(message, endConversation))
  }

  /** An integer field in pydantic's lax mode: an integer, or a string
      holding a decimal integer literal. */
  function LaxInt(v: Value): (r: Option<int>)
    ensures v.Int? ==> r == Some(v.i)
    ensures v.Str? ==> r == ParseInt(v.s)
    ensures !v.Int? && !v.Str? ==> r.None?
  {
    match v
    case Int(i) => Some(i)
    case Str(s) => ParseInt(s)
    case _ => None
  }

  /** The arguments `create_order` needs, checked against its input schema. */
  function OrderArgs(args: Args): Result<(int, seq<string>), Error> {
    if "table_number" !in args || LaxInt(args["table_number"]).None? then Err(ValidationError("table_number"))
    else if "order_items" !in args || !args["order_items"].StrList? then Err(ValidationError("order_items"))
    else Ok((LaxInt(args["table_number"]).value, args["order_items"].items))
  }

  /** Invoking a tool with validated arguments against the services: the
      output it returns and the services afterwards. */
  function InvokeTool(k: ToolKind, args: Args, svc: Services): (r: Result<(ToolOutput, Services), Error>)
    ensures k == GetMenuTool ==> r == Ok((MenuOutput(svc.menu), svc))
    ensures k == CreateOrderTool ==> (r.Ok? <==>
      && "table_number" in args && LaxInt(args["table_number"]).Some?
      && "order_items" in args && args["order_items"].StrList?)
    ensures k == CreateOrderTool && r.Ok? ==>
      && r.value.0 == TextOutput(OrderPlaced)
      && r.value.1.menu == svc.menu
      && r.value.1.orders == svc.orders + [Order(LaxInt(args["table_number"]).value, args["order_items"].items)]
    ensures k == CreateOrderTool && r.Err? ==> r.error.ValidationError?
    ensures k == RespondToUserTool ==> (r.Ok? <==> ResponseFromFields(args).Ok?)
    ensures k == RespondToUserTool && r.Ok? ==>
      && r.value.1 == svc
      && r.value.0.TextOutput?
      && ParseResponse(r.value.0.text) == ResponseFromFields(args)
  {
    match k
    case GetMenuTool => Ok((MenuOutput(svc.menu), svc))
    case CreateOrderTool =>
      var (table, items) :- OrderArgs(args);
      Ok((TextOutput(OrderPlaced), RecordOrder(svc, table, items)))
    case RespondToUserTool =>
      var resp :- ResponseFromFields(args);
      Ok((TextOutput(RespondToUser(resp.message, resp.endConversation)), svc))
  }

  /** A table number sent as the text of a number places the order for
      that table, as pydantic's lax validation converts it. */
  lemma TableNumberAsText(n: int, items: seq<string>, svc: Services)
    ensures InvokeTool(CreateOrderTool, map["table_number" := Str(IntToString(n)), "order_items" := StrList(items)], svc)
      == Ok((TextOutput(OrderPlaced), svc.(orders := svc.orders + [Order(n, items)])))
  {
    IntRoundTrip(n);
  }
}
