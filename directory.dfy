/**
  The fixed catalogue of the shop: the `User` and `Product` enums of
  InterviewQuestion.java, their constant tables, and the by-name lookups
  `User.getUser` and `Product.getProduct`.

  Money is modelled as `real`: Dafny's reals are exact rationals, so the
  decimal amounts of the source (`BigDecimal`) are represented without any
  rounding. The scale of a `BigDecimal` (10 vs 10.00) is not modelled.
*/
module Directory {
  import opened Optional

  // ---------------------------------------------------------------- Products

  datatype Product = ProductA | ProductB

  /** The name a product is looked up by. */
  function ProductName(p: Product): string
  {
    match p
    case ProductA => "ProDuctVentX"
    case ProductB => "HEV_Crowbar"
  }

  /** The unit cost of a product. */
  function Cost(p: Product): real
  {
    match p
    case ProductA => 10.0
    case ProductB => 35.7
  }

  /** `Product.values()`, in declaration order. */
  const Products: seq<Product> := [ProductA, ProductB]

  /**
    The product with the given name among `ps`; when several match, the last
    one wins, as in the loop of `getProduct`.
  */
  function FindProduct(ps: seq<Product>, name: string): (r: Option<Product>)
    ensures r.Some? ==> r.value in ps && ProductName(r.value) == name
    ensures r.None? ==> forall i :: 0 <= i < |ps| ==> ProductName(ps[i]) != name
  {
    if ps == [] then None
    else if ProductName(ps[|ps| - 1]) == name then Some(ps[|ps| - 1])
    else FindProduct(ps[..|ps| - 1], name)
  }

  /** `Product.getProduct`: scans the whole table, keeping the last match. */
  method GetProduct(name: string) returns (r: Option<Product>)
    ensures r == FindProduct(Products, name)
    ensures r.Some? <==> exists p: Product :: ProductName(p) == name
    ensures r.Some? ==> ProductName(r.value) == name
  {
    r := None;
    var i := 0;
    while i < |Products|
      invariant 0 <= i <= |Products|
      invariant r == FindProduct(Products[..i], name)
    {
      assert Products[..i + 1][..i] == Products[..i];
      if ProductName(Products[i]) == name {
        r := Some(Products[i]);
      }
      i := i + 1;
    }
    assert Products[..i] == Products;
    forall p: Product ensures r.None? ==> ProductName(p) != name {
      match p
      case ProductA => assert Products[0] == p;
      case ProductB => assert Products[1] == p;
    }
  }

  /** Looking a product up by its own name gives that product back. */
  lemma ProductLookupInverse(p: Product)
    ensures FindProduct(Products, ProductName(p)) == Some(p)
  {
  }

  // ------------------------------------------------------------------- Users

  datatype User = Bob | Dale | Laura | Diane

  /** The name a user logs in with. */
  function UserName(u: User): string
  {
    match u
    case Bob => "Bob"
    case Dale => "Dale"
    case Laura => "Laura"
    case Diane => "Diane"
  }

  /** Whether the user may change the shop's settings. */
  predicate IsAdmin(u: User)
  {
    match u
    case Bob => false
    case Dale => false
    case Laura => false
    case Diane => true
  }

  /** The amount taken off the cost of every item in the user's cart. */
  function Discount(u: User): real
  {
    match u
    case Bob => 2.35
    case Dale => 0.22
    case Laura => 1.0
    case Diane => 0.0
  }

  /** `User.values()`, in declaration order. */
  const Users: seq<User> := [Bob, Dale, Laura, Diane]

  /**
    The user with the given name among `us`; when several match, the last
    one wins, as in the loop of `getUser`.
  */
  function FindUser(us: seq<User>, name: string): (r: Option<User>)
    ensures r.Some? ==> r.value in us && UserName(r.value) == name
    ensures r.None? ==> forall i :: 0 <= i < |us| ==> UserName(us[i]) != name
  {
    if us == [] then None
    else if UserName(us[|us| - 1]) == name then Some(us[|us| - 1])
    else FindUser(us[..|us| - 1], name)
  }

  /** `User.getUser`: scans the whole table, keeping the last match. */
  method GetUser(name: string) returns (r: Option<User>)
    ensures r == FindUser(Users, name)
    ensures r.Some? <==> exists u: User :: UserName(u) == name
    ensures r.Some? ==> UserName(r.value) == name
  {
    r := None;
    var i := 0;
    while i < |Users|
      invariant 0 <= i <= |Users|
      invariant r == FindUser(Users[..i], name)
    {
      assert Users[..i + 1][..i] == Users[..i];
      if UserName(Users[i]) == name {
        r := Some(Users[i]);
      }
      i := i + 1;
    }
    assert Users[..i] == Users;
    forall u: User ensures r.None? ==> UserName(u) != name {
      match u
      case Bob => assert Users[0] == u;
      case Dale => assert Users[1] == u;
      case Laura => assert Users[2] == u;
      case Diane => assert Users[3] == u;
    }
  }

  /** Looking a user up by their own name gives that user back. */
  lemma {:induction false} UserLookupInverse(u: User)
    ensures FindUser(Users, UserName(u)) == Some(u)
  {
    var name := UserName(u);
    assert Users[..3] == [Bob, Dale, Laura];
    assert Users[..3][..2] == [Bob, Dale];
    assert Users[..3][..2][..1] == [Bob];
    match u
    case Diane =>
    case Laura =>
      assert FindUser(Users, name) == FindUser(Users[..3], name);
    case Dale =>
      assert FindUser(Users, name) == FindUser(Users[..3], name) == FindUser(Users[..3][..2], name);
    case Bob =>
      assert FindUser(Users, name) == FindUser(Users[..3], name) == FindUser(Users[..3][..2], name)
        == FindUser(Users[..3][..2][..1], name);
  }
}
