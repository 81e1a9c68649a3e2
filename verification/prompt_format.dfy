/** Python's `str.format` with keyword fields, and the waiter's system
    prompt built from it. */
module PromptFormat {
  import opened Wrappers
  import opened Errors
  import opened Text

  predicate NoBraces(s: string) {
    '{' !in s && '}' !in s
  }

  /** Prepends to a successful result; errors pass through. */
  function Prepend(prefix: string, r: Result<string, Error>): Result<string, Error> {
    match r
    case Ok(t) => Ok(prefix + t)
    case Err(e) => Err(e)
  }

  /** The length of the field name that starts `t`: up to the first brace,
      or all of `t` when there is none. */
  function FieldEnd(t: string): (j: nat)
    ensures j <= |t|
    ensures j < |t| ==> t[j] == '{' || t[j] == '}'
    ensures NoBraces(t[..j])
  {
    if |t| == 0 || t[0] == '{' || t[0] == '}' then 0
    else
      var j := FieldEnd(t[1..]);
      assert t[..1 + j] == [t[0]] + t[1..][..j];
      1 + j
  }

  /** `template.format(**fields)`: `{{` and `}}` stand for single braces,
      `{name}` for the named field's value. A field with no value is a
      KeyError, an empty field name asks for a positional argument that is
      not there, and unbalanced braces are a ValueError: a `{` or `}` with
      nothing to pair with, or a field left open at the end. */
  function Format(template: string, fields: map<string, string>): (r: Result<string, Error>)
    decreases |template|
    ensures r.Err? ==> r.error.ValueError? || r.error.IndexError? || r.error.KeyError?
  {
    if |template| == 0 then Ok("")
    else if template[0] == '{' then
      if |template| == 1 then Err(ValueError("Single '{' encountered in format string"))
      else if template[1] == '{' then Prepend("{", Format(template[2..], fields))
      else
        var j := FieldEnd(template[1..]);
        if j == |template| - 1 then Err(ValueError("expected '}' before end of string"))
        else if template[1 + j] == '{' then Err(ValueError("unexpected '{' in field name"))
        else
          var name := template[1..1 + j];
          if name == "" then Err(IndexError)
          else if name !in fields then Err(KeyError(name))
          else Prepend(fields[name], Format(template[2 + j..], fields))
    else if template[0] == '}' then
      if |template| > 1 && template[1] == '}' then Prepend("}", Format(template[2..], fields))
      else Err(ValueError("Single '}' encountered in format string"))
    else Prepend([template[0]], Format(template[1..], fields))
  }

  /** Text without braces is copied as it is. */
  lemma {:induction false} FormatLiteral(lit: string, rest: string, fields: map<string, string>)
    requires NoBraces(lit)
    ensures Format(lit + rest, fields) == Prepend(lit, Format(rest, fields))
  {
    if |lit| == 0 {
      assert lit + rest == rest;
      match Format(rest, fields)
      case Ok(t) => assert lit + t == t;
      case Err(_) =>
    } else {
      assert lit[0] in lit;
      assert lit + rest == [lit[0]] + (lit[1..] + rest);
      FormatPlainChar(lit[0], lit[1..] + rest, fields);
      FormatLiteral(lit[1..], rest, fields);
      match Format(rest, fields)
      case Ok(t) => assert [lit[0]] + (lit[1..] + t) == lit + t;
      case Err(_) =>
    }
  }

  /** Text without braces formats to itself, whatever the fields. */
  lemma FormatBraceFree(text: string, fields: map<string, string>)
    requires NoBraces(text)
    ensures Format(text, fields) == Ok(text)
  {
    FormatLiteral(text, "", fields);
    assert text + "" == text;
  }

  /** A character other than a brace is copied. */
  lemma FormatPlainChar(c: char, t: string, fields: map<string, string>)
    requires c != '{' && c != '}'
    ensures Format([c] + t, fields) == Prepend([c], Format(t, fields))
  {
    assert ([c] + t)[1..] == t;
  }

  /** A field is replaced by its value. */
  lemma FormatField(name: string, rest: string, fields: map<string, string>)
    requires NoBraces(name) && name != "" && name in fields
    ensures Format(Placeholder(name) + rest, fields) == Prepend(fields[name], Format(rest, fields))
  {
    var s := "{" + name + "}" + rest;
    assert s[1..] == name + ("}" + rest);
    FieldEndOf(name, "}" + rest);
    assert s[1..1 + |name|] == name;
    assert s[2 + |name|..] == rest;
  }

  /** A lone `{` at the end of the text is reported as such, not as an
      unfinished field. */
  lemma FormatTrailingBrace(lit: string, fields: map<string, string>)
    requires NoBraces(lit)
    ensures Format(lit + "{", fields) == Err(ValueError("Single '{' encountered in format string"))
  {
    FormatLiteral(lit, "{", fields);
  }

  /** A field without a value stops the formatting with a KeyError naming
      it, whatever follows. */
  lemma FormatMissingField(lit: string, name: string, rest: string, fields: map<string, string>)
    requires NoBraces(lit) && NoBraces(name) && name != "" && name !in fields
    ensures Format(lit + Placeholder(name) + rest, fields) == Err(KeyError(name))
  {
    var s := "{" + name + "}" + rest;
    assert lit + Placeholder(name) + rest == lit + s;
    FormatLiteral(lit, s, fields);
    assert s[0] == '{' && s[1] == name[0] && name[0] in name;
    assert s[1..] == name + ("}" + rest);
    FieldEndOf(name, "}" + rest);
    assert s[1 + |name|] == '}';
    assert s[1..1 + |name|] == name;
    assert Format(s, fields) == Err(KeyError(name));
  }

  lemma {:induction false} FieldEndOf(name: string, rest: string)
    requires NoBraces(name)
    requires |rest| > 0 && (rest[0] == '{' || rest[0] == '}')
    ensures FieldEnd(name + rest) == |name|
  {
    if |name| == 0 {
      assert name + rest == rest;
    } else {
      assert (name + rest)[1..] == name[1..] + rest;
      FieldEndOf(name[1..], rest);
    }
  }

  /** The placeholder for a keyword field. */
  function Placeholder(name: string): string {
    "{" + name + "}"
  }

  /** A template with two fields between brace-free text is filled in
      field by field. */
  lemma FillTwoFields(head: string, first: string, middle: string, second: string, tail: string,
                      fields: map<string, string>)
    requires NoBraces(head) && NoBraces(middle) && NoBraces(tail)
    requires NoBraces(first) && first != "" && first in fields
    requires NoBraces(second) && second != "" && second in fields
    ensures Format(head + Placeholder(first) + middle + Placeholder(second) + tail, fields) ==
      Ok(head + fields[first] + middle + fields[second] + tail)
  {
    var t2 := Placeholder(second) + tail;
    var t1 := middle + t2;
    var u := Placeholder(first) + t1;
    Regroup5(head, Placeholder(first), middle, Placeholder(second), tail);
    FormatLiteral(tail, "", fields);
    assert tail + "" == tail;
    assert Format(tail, fields) == Ok(tail);
    FormatField(second, tail, fields);
    assert Format(t2, fields) == Ok(fields[second] + tail);
    FormatLiteral(middle, t2, fields);
    assert Format(t1, fields) == Ok(middle + (fields[second] + tail));
    FormatField(first, t1, fields);
    assert Format(u, fields) == Ok(fields[first] + (middle + (fields[second] + tail)));
    FormatLiteral(head, u, fields);
    Regroup5(head, fields[first], middle, fields[second], tail);
  }

  lemma Regroup5(a: string, b: string, c: string, d: string, e: string)
    ensures a + b + c + d + e == a + (b + (c + (d + e)))
  {
  }
}

/** The fixed text of the waiter's prompt template, between and after
    its two fields. */
module PromptText {
  import opened PromptFormat

  // The template's text, in fragments short enough for the verifier to
  // see at once that none of them holds a brace.
  const Role := "\nYou are playing the role "
  const OfAWaiter := "of a waiter in a restaurant "
  const Called := "called \""
  const TakingOrders := "\" taking orders\n"
  const ForTable := "for table number "
  const YouMust := ".\nYou must:\n"
  const Greet := "* Greet the customer, "
  const AskIf := "ask if they have any "
  const Dietary := "dietary restrictions\n"
  const TellThem := "* Tell them about "
  const MenuItems := "appropriate menu items "
  const GetMenuTool := "using the *get_menu()* tool.\n"
  const TakeOrder := "* Take their order, "
  const ConfirmIt := "and confirm it with them.\n"
  const WhenConfirmed := "* When confirmed, use the "
  const CreateOrderTool := "*create_order()* tool to "
  const CreateAnOrder := "create an order for "
  const TheCustomer := "the customer.\n"

  const TemplateHead := Role + OfAWaiter + Called
  const TemplateMiddle := TakingOrders + ForTable
  const TemplateTail := YouMust + Greet + AskIf + Dietary + TellThem + MenuItems + GetMenuTool + TakeOrder + ConfirmIt + WhenConfirmed + CreateOrderTool + CreateAnOrder + TheCustomer

  lemma TemplatePiecesBraceFree()
    ensures NoBraces(TemplateHead) && NoBraces(TemplateMiddle) && NoBraces(TemplateTail)
    ensures NoBraces("restaurant_name") && NoBraces("table_number")
  {
    RoleBraceFree();
    OfAWaiterBraceFree();
    CalledBraceFree();
    TakingOrdersBraceFree();
    ForTableBraceFree();
    YouMustBraceFree();
    GreetBraceFree();
    AskIfBraceFree();
    DietaryBraceFree();
    TellThemBraceFree();
    MenuItemsBraceFree();
    GetMenuToolBraceFree();
    TakeOrderBraceFree();
    ConfirmItBraceFree();
    WhenConfirmedBraceFree();
    CreateOrderToolBraceFree();
    CreateAnOrderBraceFree();
    TheCustomerBraceFree();
    BraceFreeJoin(Role, OfAWaiter);
    BraceFreeJoin(Role + OfAWaiter, Called);
    BraceFreeJoin(TakingOrders, ForTable);
    BraceFreeJoin(YouMust, Greet);
    BraceFreeJoin(YouMust + Greet, AskIf);
    BraceFreeJoin(YouMust + Greet + AskIf, Dietary);
    BraceFreeJoin(YouMust + Greet + AskIf + Dietary, TellThem);
    BraceFreeJoin(YouMust + Greet + AskIf + Dietary + TellThem, MenuItems);
    BraceFreeJoin(YouMust + Greet + AskIf + Dietary + TellThem + MenuItems, GetMenuTool);
    BraceFreeJoin(YouMust + Greet + AskIf + Dietary + TellThem + MenuItems + GetMenuTool, TakeOrder);
    BraceFreeJoin(YouMust + Greet + AskIf + Dietary + TellThem + MenuItems + GetMenuTool + TakeOrder, ConfirmIt);
    BraceFreeJoin(YouMust + Greet + AskIf + Dietary + TellThem + MenuItems + GetMenuTool + TakeOrder + ConfirmIt, WhenConfirmed);
    BraceFreeJoin(YouMust + Greet + AskIf + Dietary + TellThem + MenuItems + GetMenuTool + TakeOrder + ConfirmIt + WhenConfirmed, CreateOrderTool);
    BraceFreeJoin(YouMust + Greet + AskIf + Dietary + TellThem + MenuItems + GetMenuTool + TakeOrder + ConfirmIt + WhenConfirmed + CreateOrderTool, CreateAnOrder);
    BraceFreeJoin(YouMust + Greet + AskIf + Dietary + TellThem + MenuItems + GetMenuTool + TakeOrder + ConfirmIt + WhenConfirmed + CreateOrderTool + CreateAnOrder, TheCustomer);
  }

  lemma RoleBraceFree()
    ensures NoBraces(Role)
  {
  }

  lemma OfAWaiterBraceFree()
    ensures NoBraces(OfAWaiter)
  {
  }

  lemma CalledBraceFree()
    ensures NoBraces(Called)
  {
  }

  lemma TakingOrdersBraceFree()
    ensures NoBraces(TakingOrders)
  {
  }

  lemma ForTableBraceFree()
    ensures NoBraces(ForTable)
  {
  }

  lemma YouMustBraceFree()
    ensures NoBraces(YouMust)
  {
  }

  lemma GreetBraceFree()
    ensures NoBraces(Greet)
  {
  }

  lemma AskIfBraceFree()
    ensures NoBraces(AskIf)
  {
  }

  lemma DietaryBraceFree()
    ensures NoBraces(Dietary)
  {
  }

  lemma TellThemBraceFree()
    ensures NoBraces(TellThem)
  {
  }

  lemma MenuItemsBraceFree()
    ensures NoBraces(MenuItems)
  {
  }

  lemma GetMenuToolBraceFree()
    ensures NoBraces(GetMenuTool)
  {
  }

  lemma TakeOrderBraceFree()
    ensures NoBraces(TakeOrder)
  {
  }

  lemma ConfirmItBraceFree()
    ensures NoBraces(ConfirmIt)
  {
  }

  lemma WhenConfirmedBraceFree()
    ensures NoBraces(WhenConfirmed)
  {
  }

  lemma CreateOrderToolBraceFree()
    ensures NoBraces(CreateOrderTool)
  {
  }

  lemma CreateAnOrderBraceFree()
    ensures NoBraces(CreateAnOrder)
  {
  }

  lemma TheCustomerBraceFree()
    ensures NoBraces(TheCustomer)
  {
  }

  /** Concatenation keeps a text free of braces. */
  lemma BraceFreeJoin(a: string, b: string)
    requires NoBraces(a) && NoBraces(b)
    ensures NoBraces(a + b)
  {
  }
}

/** The waiter's prompt template and the system prompt the PydanticAI
    agent builds from it for each run. */
module Prompt {
  import opened Wrappers
  import opened Errors
  import opened Text
  import opened PromptFormat
  import opened PromptText

  /** The waiter's prompt template with its two fields. */
  const PromptTemplate :=
    TemplateHead + Placeholder("restaurant_name") + TemplateMiddle + Placeholder("table_number") + TemplateTail

  /** The system prompt: the template with the restaurant name and the
      table number written in. */
  function SystemPrompt(restaurantName: string, tableNumber: int): (r: Result<string, Error>)
    ensures r == Ok(TemplateHead + restaurantName + TemplateMiddle + IntToString(tableNumber) + TemplateTail)
  {
    var fields := map["restaurant_name" := restaurantName, "table_number" := IntToString(tableNumber)];
    TemplateFilledIn(fields);
    Format(PromptTemplate, fields)
  }


  lemma TemplateFilledIn(fields: map<string, string>)
    requires "restaurant_name" in fields && "table_number" in fields
    ensures Format(PromptTemplate, fields) ==
      Ok(TemplateHead + fields["restaurant_name"] + TemplateMiddle + fields["table_number"] + TemplateTail)
  {
    TemplatePiecesBraceFree();
    FillTwoFields(TemplateHead, "restaurant_name", TemplateMiddle, "table_number", TemplateTail, fields);
  }
}
