/**
  A client's view of the dispatcher: one method per kind of request, each
  proved from the contract of `QueryServer`, and request sequences against
  a fresh server built from them: the session limit, carts that outlive
  sessions, two sessions of one user sharing a cart, the tax example, the
  admin check and clearing a cart.

  Every request takes a `spare` token: the fresh value the token generator
  would hand out should the request be a login.
*/
module Scenarios {
  import opened Optional
  import opened Directory
  import opened Pricing
  import opened Dispatcher

  // ------------------------------------------------------------ Requests

  /** A `userLogin` request for user `u`, naming them by their name. */
  method RequestLogin(s: Server, u: User, spare: Token) returns (r: Response)
    requires s.Valid() && spare !in s.sessions
    modifies s
    ensures s.Valid()
    ensures |old(s.sessions)| >= MaxLogins ==> r == Err(IllegalState, MaxLoginsMessage) && unchanged(s)
    ensures |old(s.sessions)| < MaxLogins ==>
      && r == Ok(LoginFields(spare))
      && s.sessions == old(s.sessions)[spare := u]
      && s.carts == (if u in old(s.carts) then old(s.carts) else old(s.carts)[u := []])
      && s.gst == old(s.gst)
  {
    UserLookupInverse(u);
    r := s.QueryServer(None, Some("userLogin"), Some(map["userName" := Str(UserName(u))]), spare);
  }

  /** A `userLogout` request from the live session `t`. */
  method RequestLogout(s: Server, t: Token, spare: Token) returns (r: Response)
    requires s.Valid() && t in s.sessions && spare !in s.sessions
    modifies s
    ensures s.Valid()
    ensures r == Ok(NoFields)
    ensures s.sessions == old(s.sessions) - {t} && s.carts == old(s.carts) && s.gst == old(s.gst)
  {
    r := s.QueryServer(Some(t), Some("userLogout"), None, spare);
  }

  /** An `adminSettings` request from the live session `t`. */
  method RequestSettings(s: Server, t: Token, value: Value, spare: Token) returns (r: Response)
    requires s.Valid() && t in s.sessions && spare !in s.sessions
    modifies s
    ensures s.Valid() && s.sessions == old(s.sessions) && s.carts == old(s.carts)
    ensures !value.Bool? ==> r == Err(IllegalArgument, NotBooleanMessage) && s.gst == old(s.gst)
    ensures value.Bool? && !IsAdmin(s.sessions[t]) ==> r == Err(IllegalState, NotAdminMessage) && s.gst == old(s.gst)
    ensures value.Bool? && IsAdmin(s.sessions[t]) ==> r == Ok(NoFields) && s.gst == value.b
  {
    r := s.QueryServer(Some(t), Some("adminSettings"), Some(map["gst" := value]), spare);
  }

  /** An `addProductToCart` request for product `p` from the live session `t`. */
  method RequestAdd(s: Server, t: Token, p: Product, spare: Token) returns (r: Response)
    requires s.Valid() && t in s.sessions && spare !in s.sessions
    modifies s
    ensures s.Valid()
    ensures r == Ok(NoFields)
    ensures s.sessions == old(s.sessions) && s.gst == old(s.gst)
    ensures
      var user := old(s.sessions)[t];
      s.carts == old(s.carts)[user := old(s.carts)[user] + [p]]
  {
    ProductLookupInverse(p);
    r := s.QueryServer(Some(t), Some("addProductToCart"), Some(map["product" := Str(ProductName(p))]), spare);
  }

  /** A `clearCart` request from the live session `t`. */
  method RequestClear(s: Server, t: Token, spare: Token) returns (r: Response)
    requires s.Valid() && t in s.sessions && spare !in s.sessions
    modifies s
    ensures s.Valid()
    ensures r == Ok(NoFields)
    ensures s.sessions == old(s.sessions) && s.gst == old(s.gst)
    ensures s.carts == old(s.carts)[old(s.sessions)[t] := []]
  {
    r := s.QueryServer(Some(t), Some("clearCart"), None, spare);
  }

  /** A `getCartDetails` request from the live session `t`. */
  method RequestDetails(s: Server, t: Token, spare: Token) returns (r: Response)
    requires s.Valid() && t in s.sessions && spare !in s.sessions
    modifies s
    ensures unchanged(s)
    ensures
      var user := s.sessions[t];
      var cart := s.carts[user];
      r == Ok(CartFields(CartDetails(cart, |cart|, CartTotal(cart, user, s.gst))))
  {
    r := s.QueryServer(Some(t), Some("getCartDetails"), None, spare);
  }

  // ----------------------------------------------------------- Sequences

  /**
    Three logins fill the session table, so a fourth is refused; once one
    session logs out, a login succeeds again.
  */
  method SessionLimit() returns (fourth: Response, afterLogout: Response)
    ensures fourth == Err(IllegalState, MaxLoginsMessage)
    ensures afterLogout == Ok(LoginFields("t5"))
  {
    var s := new Server();
    var r := RequestLogin(s, Bob, "t1");
    r := RequestLogin(s, Dale, "t2");
    r := RequestLogin(s, Bob, "t3");
    fourth := RequestLogin(s, Dale, "t4");
    r := RequestLogout(s, "t2", "t4");
    afterLogout := RequestLogin(s, Dale, "t5");
  }

  /**
    A cart belongs to the user, not the session: what Laura added is still
    there after she logs out and in again.
  */
  method CartSurvivesLogout() returns (details: Response)
    ensures details.Ok? && details.fields.CartFields?
    ensures details.fields.details.products == [ProductA, ProductB]
    ensures details.fields.details.totalQty == 2
  {
    var s := new Server();
    var r := RequestLogin(s, Laura, "t1");
    r := RequestAdd(s, "t1", ProductA, "t2");
    r := RequestAdd(s, "t1", ProductB, "t2");
    r := RequestLogout(s, "t1", "t2");
    r := RequestLogin(s, Laura, "t2");
    details := RequestDetails(s, "t2", "t3");
  }

  /**
    Two logins of one user give two live tokens that share one cart: what
    is added through one is seen through the other.
  */
  method SharedCart() returns (first: Response, second: Response, details: Response)
    ensures first == Ok(LoginFields("t1")) && second == Ok(LoginFields("t2"))
    ensures details.Ok? && details.fields.CartFields?
    ensures details.fields.details.products == [ProductB]
  {
    var s := new Server();
    first := RequestLogin(s, Dale, "t1");
    second := RequestLogin(s, Dale, "t2");
    var r := RequestAdd(s, "t1", ProductB, "t3");
    details := RequestDetails(s, "t2", "t3");
  }

  /**
    The admin turns the tax on; Laura (discount 1.00) with one of each
    product then owes (10.00 - 1.00 + 35.70 - 1.00) * 1.1 = 48.07.
  */
  method TaxedTotal() returns (details: Response)
    ensures details.Ok? && details.fields.CartFields?
    ensures details.fields.details.totalQty == 2
    ensures details.fields.details.totalCost == 48.07
  {
    LauraPays();
    var s := new Server();
    var r := RequestLogin(s, Diane, "admin");
    r := RequestSettings(s, "admin", Bool(true), "t1");
    r := RequestLogin(s, Laura, "t1");
    r := RequestAdd(s, "t1", ProductA, "t2");
    r := RequestAdd(s, "t1", ProductB, "t2");
    assert s.carts[Laura] == [ProductA, ProductB] && s.gst;
    details := RequestDetails(s, "t1", "t2");
  }

  /**
    A non-admin cannot change the tax flag even with a proper boolean, and
    the admin cannot set it from the string "true".
  */
  method TaxNeedsAdminAndBoolean() returns (byBob: Response, byString: Response, taxed: bool)
    ensures byBob == Err(IllegalState, NotAdminMessage)
    ensures byString == Err(IllegalArgument, NotBooleanMessage)
    ensures !taxed
  {
    var s := new Server();
    var r := RequestLogin(s, Bob, "bob");
    r := RequestLogin(s, Diane, "diane");
    byBob := RequestSettings(s, "bob", Bool(true), "t");
    byString := RequestSettings(s, "diane", Str("true"), "t");
    taxed := s.gst;
  }

  /** After `clearCart` the cart is reported empty, at zero cost. */
  method ClearedCart() returns (details: Response)
    ensures details == Ok(CartFields(CartDetails([], 0, 0.0)))
  {
    var s := new Server();
    var r := RequestLogin(s, Bob, "t1");
    r := RequestAdd(s, "t1", ProductA, "t2");
    r := RequestClear(s, "t1", "t2");
    details := RequestDetails(s, "t1", "t2");
  }
}
