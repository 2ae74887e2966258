/**
  The request dispatcher `queryServer` of InterviewQuestion.java and the
  process state it mutates: the live sessions (token to user), the carts
  (user to the ordered list of products added) and the goods-and-services
  tax flag. The source keeps these in static fields; here they are the fields
  of one `Server` object, and every handler is a method on it.

  Java exceptions become an error kind plus the exception's message, and
  the untyped request and response maps become datatypes.
*/
module Dispatcher {
  import opened Optional
  import opened Directory
  import opened Pricing

  /** An opaque session token, handed out by a successful login. */
  type Token = string

  /** The number of sessions that may be live at once. */
  const MaxLogins: nat := 3

  /** The handlers `queryServer` routes to by function name. */
  datatype Route =
    | LoginRoute | LogoutRoute | AdminSettingsRoute | AddProductRoute
    | ClearCartRoute | CartDetailsRoute | UnknownRoute

  /** The `switch` of `queryServer`: the handler for a function name. */
  function RouteOf(name: string): Route
  {
    match name
    case "userLogin" => LoginRoute
    case "userLogout" => LogoutRoute
    case "adminSettings" => AdminSettingsRoute
    case "addProductToCart" => AddProductRoute
    case "clearCart" => ClearCartRoute
    case "getCartDetails" => CartDetailsRoute
    case _ => UnknownRoute
  }

  /** The names of the functions that may be called without any content. */
  const ContentExempt: set<string> := {"userLogout", "getCartDetails", "clearCart"}

  /** Whether a function with this handler must be given content. */
  predicate NeedsContent(route: Route)
  {
    !(route.LogoutRoute? || route.CartDetailsRoute? || route.ClearCartRoute?)
  }

  /**
    The exempt names are exactly the names of the logout, clear-cart and
    cart-details handlers: every other name, known or not, needs content.
  */
  lemma ExemptNames(name: string)
    ensures name in ContentExempt <==> !NeedsContent(RouteOf(name))
  {
  }

  const NoContentMessage := "No content provided"
  const InvalidContextMessage := "Invalid context ID provided."
  const UnknownFunctionMessage := "Unknown function provided."
  const NoSuchUserMessage := "User doesn't exist!"
  const MaxLoginsMessage := "Max logins reached... logout or clear sessions first."
  const NotBooleanMessage := "Boolean GST value has not been provided."
  const NotAdminMessage := "This user is not an Admin!"
  const NoSuchProductMessage := "Product String value has not been provided."

  // ----------------------------------------------------------- Requests

  /**
    A non-null value of the request's content map: a string, a boolean, or
    any other object, kept as the text `String.valueOf` gives for it.
    A key that is absent and a key mapped to Java's null behave alike.
  */
  datatype Value = Str(s: string) | Bool(b: bool) | Other(text: string)

  type Content = map<string, Value>

  /** `content.get(key)`. */
  function Get(content: Content, key: string): Option<Value>
  {
    if key in content then Some(content[key]) else None
  }

  /** `String.valueOf(v)`: a missing value prints as "null". */
  function ValueOf(v: Option<Value>): string
  {
    match v
    case None => "null"
    case Some(Str(s)) => s
    case Some(Bool(b)) => if b then "true" else "false"
    case Some(Other(text)) => text
  }

  /** `v instanceof Boolean`. */
  predicate IsBoolean(v: Option<Value>)
  {
    v.Some? && v.value.Bool?
  }

  // ---------------------------------------------------------- Responses

  /** The class of the exception a failing request reports. */
  datatype ErrorKind = NullPointer | IllegalArgument | IllegalState

  /** What `getCartDetails` reports about a cart. */
  datatype CartDetails = CartDetails(products: seq<Product>, totalQty: nat, totalCost: real)

  /** The handler-specific fields of a successful response. */
  datatype Fields = NoFields | LoginFields(contextID: Token) | CartFields(details: CartDetails)

  /**
    The response envelope: empty when no function was named, otherwise
    `success` with the handler's fields, or a failure with the kind and
    message of the exception that ended the request.
  */
  datatype Response = NoOp | Ok(fields: Fields) | Err(kind: ErrorKind, message: string)

  /** What a handler does: return a value, or throw. */
  datatype Result<T> = Returned(value: T) | Threw(kind: ErrorKind, message: string)

  // -------------------------------------------------------------- State

  class Server {
    var sessions: map<Token, User>
    var carts: map<User, seq<Product>>
    var gst: bool

    /**
      At most `MaxLogins` sessions are live, and every logged-in user has a
      cart, so no handler ever looks up a missing cart.
    */
    ghost predicate Valid()
      reads this
    {
      && |sessions| <= MaxLogins
      && forall t :: t in sessions ==> sessions[t] in carts
    }

    /** The state at process start: no sessions, no carts, no tax. */
    constructor ()
      ensures Valid()
      ensures sessions == map[] && carts == map[] && !gst
    {
      sessions := map[];
      carts := map[];
      gst := false;
    }

    /** Whether `contextID` is present and names a live session. */
    predicate IsLive(contextID: Option<Token>)
      reads this
    {
      contextID.Some? && contextID.value in sessions
    }

    /**
      Whether a request for the handler `route` passes the dispatcher's
      checks: it has content unless the handler needs none, and it comes
      from a live session unless it is a login.
    */
    predicate Admitted(contextID: Option<Token>, route: Route, content: Option<Content>)
      reads this
    {
      && (content.Some? || !NeedsContent(route))
      && (route.LoginRoute? || IsLive(contextID))
    }

    /**
      `login`: the user must exist, and only then is the session limit
      checked; on success the fresh token is mapped to the user, who gets an
      empty cart unless they already have one.
    */
    method Login(name: string, newToken: Token) returns (r: Result<Token>)
      requires Valid()
      requires newToken !in sessions
      modifies this
      ensures Valid()
      ensures FindUser(Users, name).None? ==>
        r == Threw(IllegalArgument, NoSuchUserMessage) && unchanged(this)
      ensures FindUser(Users, name).Some? && |old(sessions)| >= MaxLogins ==>
        r == Threw(IllegalState, MaxLoginsMessage) && unchanged(this)
      ensures FindUser(Users, name).Some? && |old(sessions)| < MaxLogins ==>
        var user := FindUser(Users, name).value;
        && r == Returned(newToken)
        && sessions == old(sessions)[newToken := user]
        && carts == (if user in old(carts) then old(carts) else old(carts)[user := []])
        && gst == old(gst)
    {
      var user := GetUser(name);
      if user.None? {
        return Threw(IllegalArgument, NoSuchUserMessage);
      }
      if |sessions| >= MaxLogins {
        return Threw(IllegalState, MaxLoginsMessage);
      }
      assert (sessions[newToken := user.value]).Keys == sessions.Keys + {newToken};
      sessions := sessions[newToken := user.value];
      if user.value !in carts {
        carts := carts[user.value := []];
      }
      r := Returned(newToken);
    }

    /**
      `adminSettings`: the value must be a boolean, and only then must the
      session's user be an admin; on success the tax flag takes the value.
    */
    method AdminSettings(contextID: Token, requestGst: Option<Value>) returns (r: Result<()>)
      requires Valid()
      requires contextID in sessions
      modifies this`gst
      ensures Valid()
      ensures !IsBoolean(requestGst) ==>
        r == Threw(IllegalArgument, NotBooleanMessage) && gst == old(gst)
      ensures IsBoolean(requestGst) && !IsAdmin(sessions[contextID]) ==>
        r == Threw(IllegalState, NotAdminMessage) && gst == old(gst)
      ensures IsBoolean(requestGst) && IsAdmin(sessions[contextID]) ==>
        r == Returned(()) && gst == requestGst.value.b
    {
      if IsBoolean(requestGst) {
        if IsAdmin(sessions[contextID]) {
          gst := requestGst.value.b;
          r := Returned(());
        } else {
          r := Threw(IllegalState, NotAdminMessage);
        }
      } else {
        r := Threw(IllegalArgument, NotBooleanMessage);
      }
    }

    /**
      `addProductToCart`: the product must exist; it is then appended to the
      cart of the session's user, and every other cart is left as it was.
    */
    method AddProductToCart(contextID: Token, productName: string) returns (r: Result<()>)
      requires Valid()
      requires contextID in sessions
      modifies this`carts
      ensures Valid()
      ensures FindProduct(Products, productName).None? ==>
        r == Threw(IllegalArgument, NoSuchProductMessage) && carts == old(carts)
      ensures FindProduct(Products, productName).Some? ==>
        var user := sessions[contextID];
        && r == Returned(())
        && carts == old(carts)[user := old(carts)[user] + [FindProduct(Products, productName).value]]
    {
      var product := GetProduct(productName);
      if product.Some? {
        var user := sessions[contextID];
        carts := carts[user := carts[user] + [product.value]];
        r := Returned(());
      } else {
        r := Threw(IllegalArgument, NoSuchProductMessage);
      }
    }

    /**
      `getCartDetails`: reports the cart of the session's user as it is, the
      number of items in it (duplicates included) and its total cost.
    */
    method GetCartDetails(contextID: Token) returns (d: CartDetails)
      requires Valid()
      requires contextID in sessions
      ensures d.products == carts[sessions[contextID]]
      ensures d.totalQty == |d.products|
      ensures d.totalCost == CartTotal(d.products, sessions[contextID], gst)
    {
      var user := sessions[contextID];
      var cart := carts[user];
      var totalCost := 0.0;
      var i := 0;
      while i < |cart|
        invariant 0 <= i <= |cart|
        invariant totalCost == Subtotal(cart[..i], Discount(user))
      {
        assert cart[..i + 1][..i] == cart[..i];
        totalCost := totalCost + (Cost(cart[i]) - Discount(user));
        i := i + 1;
      }
      assert cart[..i] == cart;
      if gst {
        totalCost := totalCost * TaxFactor;
      }
      d := CartDetails(cart, |cart|, totalCost);
    }

    /**
      `queryServer`: checks, in this order, that a function is named, that
      content is present unless the function is exempt, and that the context
      ID names a live session unless the function is a login; then routes to
      the handler. Every failure leaves the state as it was.
    */
    method QueryServer(contextID: Option<Token>, functionName: Option<string>,
                       content: Option<Content>, newToken: Token)
      returns (r: Response)
      requires Valid()
      requires newToken !in sessions
      modifies this
      ensures Valid()
      ensures r == NoOp <==> functionName.None?
      ensures r.NoOp? || r.Err? ==> unchanged(this)
      // the three checks, in order
      ensures functionName.Some? && content.None? && NeedsContent(RouteOf(functionName.value)) ==>
        r == Err(NullPointer, NoContentMessage)
      ensures functionName.Some? && (content.Some? || !NeedsContent(RouteOf(functionName.value)))
              && !RouteOf(functionName.value).LoginRoute? && !old(IsLive(contextID)) ==>
        r == Err(NullPointer, InvalidContextMessage)
      ensures functionName.Some? && RouteOf(functionName.value).UnknownRoute?
              && old(Admitted(contextID, UnknownRoute, content)) ==>
        r == Err(IllegalArgument, UnknownFunctionMessage)
      // userLogin
      ensures functionName.Some? && RouteOf(functionName.value).LoginRoute? && content.Some? ==>
        var user := FindUser(Users, ValueOf(Get(content.value, "userName")));
        && (user.None? ==> r == Err(IllegalArgument, NoSuchUserMessage))
        && (user.Some? && |old(sessions)| >= MaxLogins ==> r == Err(IllegalState, MaxLoginsMessage))
        && (user.Some? && |old(sessions)| < MaxLogins ==>
              && r == Ok(LoginFields(newToken))
              && sessions == old(sessions)[newToken := user.value]
              && carts == (if user.value in old(carts) then old(carts) else old(carts)[user.value := []])
              && gst == old(gst))
      // userLogout
      ensures functionName.Some? && RouteOf(functionName.value).LogoutRoute? && old(IsLive(contextID)) ==>
        && r == Ok(NoFields)
        && sessions == old(sessions) - {contextID.value}
        && carts == old(carts) && gst == old(gst)
      // adminSettings
      ensures functionName.Some? && RouteOf(functionName.value).AdminSettingsRoute?
              && content.Some? && old(IsLive(contextID)) ==>
        var value := Get(content.value, "gst");
        && (!IsBoolean(value) ==> r == Err(IllegalArgument, NotBooleanMessage))
        && (IsBoolean(value) && !IsAdmin(old(sessions)[contextID.value]) ==>
              r == Err(IllegalState, NotAdminMessage))
        && (IsBoolean(value) && IsAdmin(old(sessions)[contextID.value]) ==>
              && r == Ok(NoFields) && gst == value.value.b
              && sessions == old(sessions) && carts == old(carts))
      // addProductToCart
      ensures functionName.Some? && RouteOf(functionName.value).AddProductRoute?
              && content.Some? && old(IsLive(contextID)) ==>
        var product := FindProduct(Products, ValueOf(Get(content.value, "product")));
        var user := old(sessions)[contextID.value];
        && (product.None? ==> r == Err(IllegalArgument, NoSuchProductMessage))
        && (product.Some? ==>
              && r == Ok(NoFields)
              && carts == old(carts)[user := old(carts)[user] + [product.value]]
              && sessions == old(sessions) && gst == old(gst))
      // clearCart
      ensures functionName.Some? && RouteOf(functionName.value).ClearCartRoute? && old(IsLive(contextID)) ==>
        var user := old(sessions)[contextID.value];
        && r == Ok(NoFields)
        && carts == old(carts)[user := []]
        && sessions == old(sessions) && gst == old(gst)
      // getCartDetails
      ensures functionName.Some? && RouteOf(functionName.value).CartDetailsRoute? && old(IsLive(contextID)) ==>
        && unchanged(this)
        && var user := sessions[contextID.value];
           r == Ok(CartFields(CartDetails(carts[user], |carts[user]|, CartTotal(carts[user], user, gst))))
    {
      if functionName.None? {
        return NoOp;
      }
      var name := functionName.value;
      ExemptNames(name);
      if content.None? && name !in ContentExempt {
        return Err(NullPointer, NoContentMessage);
      }
      var route := RouteOf(name);
      if (contextID.None? || contextID.value !in sessions) && !route.LoginRoute? {
        return Err(NullPointer, InvalidContextMessage);
      }
      match route
      case LogoutRoute =>
        sessions := sessions - {contextID.value};
        r := Ok(NoFields);
      case LoginRoute =>
        var result := Login(ValueOf(Get(content.value, "userName")), newToken);
        r := if result.Returned? then Ok(LoginFields(result.value)) else Err(result.kind, result.message);
      case AdminSettingsRoute =>
        var result := AdminSettings(contextID.value, Get(content.value, "gst"));
        r := if result.Returned? then Ok(NoFields) else Err(result.kind, result.message);
      case AddProductRoute =>
        var result := AddProductToCart(contextID.value, ValueOf(Get(content.value, "product")));
        r := if result.Returned? then Ok(NoFields) else Err(result.kind, result.message);
      case ClearCartRoute =>
        var user := sessions[contextID.value];
        carts := carts[user := []];
        r := Ok(NoFields);
      case CartDetailsRoute =>
        var details := GetCartDetails(contextID.value);
        r := Ok(CartFields(details));
      case UnknownRoute =>
        r := Err(IllegalArgument, UnknownFunctionMessage);
    }
  }
}
