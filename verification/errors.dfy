/**
 * The errors the repositories and the cart service return, and the exact text
 * of each one (Go's `errors.New(...)` / `fmt.Sprintf(...)` strings).
 */
module Errors {

  /** One constructor per distinct error string of the core. */
  datatype Error =
    | ClientNotFound(clientId: int)       // "client with id: %v not found"
    | CartNotFound(clientId: int)         // "cart for client id: %v not found"
    | CartCreationFailed                  // "cart not found! unable to create new cart"
    | ProductNotFound                     // "unable to find the product in our db"
    | ProductListUnavailable              // "unable to retrieve the list of products"
    | AssociationFailed                   // "unable to add product to the cart"
    | EmptyCart                           // "the cart has no products"
    | OrderCreationFailed(clientId: int)  // "Unable to create order for clientId: %v"
    | OrderNotFound(clientId: int)        // "order for clientId: %v not found"

  /** A value or the error that stopped the operation. */
  datatype Result<+T> = Ok(value: T) | Err(error: Error)

  /** Go's `%v` rendering of one decimal digit. */
  function DigitChar(d: int): (c: char)
    requires 0 <= d < 10
    ensures '0' <= c <= '9'
    ensures c as int - '0' as int == d
  {
    ('0' as int + d) as char
  }

  /** The number a string of decimal digits denotes, most significant digit first. */
  function DigitsValue(s: string): int
  {
    if s == [] then 0 else 10 * DigitsValue(s[..|s| - 1]) + (s[|s| - 1] as int - '0' as int)
  }

  /** The number a rendering denotes: digits, after a '-' for a negative value. */
  function SignedValue(s: string): int
  {
    if |s| > 0 && s[0] == '-' then -DigitsValue(s[1..]) else DigitsValue(s)
  }

  /** Go's `%v` rendering of a non-negative int: decimal, no leading zeros. */
  function NatDecimal(n: nat): (s: string)
    ensures 1 <= |s|
    ensures forall i :: 0 <= i < |s| ==> '0' <= s[i] <= '9'
    ensures n < 10 <==> |s| == 1
    ensures |s| > 1 ==> s[0] != '0'
    ensures DigitsValue(s) == n
  {
    if n < 10 then [DigitChar(n)]
    else
      var init := NatDecimal(n / 10);
      assert (init + [DigitChar(n % 10)])[..|init|] == init;
      init + [DigitChar(n % 10)]
  }

  /** Go's `%v` rendering of an int (a leading '-' for negative values). */
  function Decimal(n: int): (s: string)
    ensures 1 <= |s|
    ensures s[0] == '-' <==> n < 0
    ensures var d := if n < 0 then s[1..] else s;
      && 1 <= |d|
      && (forall i :: 0 <= i < |d| ==> '0' <= d[i] <= '9')
      && (|d| > 1 ==> d[0] != '0')
    ensures SignedValue(s) == n
  {
    if n < 0 then
      assert ("-" + NatDecimal(-n))[1..] == NatDecimal(-n);
      "-" + NatDecimal(-n)
    else NatDecimal(n)
  }

  /** Equal renderings of non-negative ints denote equal ints. */
  lemma NatDecimalInjective(a: nat, b: nat)
    requires NatDecimal(a) == NatDecimal(b)
    ensures a == b
  {
  }

  /** Different ids never print the same way. */
  lemma DecimalInjective(a: int, b: int)
    requires Decimal(a) == Decimal(b)
    ensures a == b
  {
  }

  /** The text the source puts in each error. */
  function Message(e: Error): string
  {
    match e
    case ClientNotFound(id) => "client with id: " + Decimal(id) + " not found"
    case CartNotFound(id) => "cart for client id: " + Decimal(id) + " not found"
    case CartCreationFailed => "cart not found! unable to create new cart"
    case ProductNotFound => "unable to find the product in our db"
    case ProductListUnavailable => "unable to retrieve the list of products"
    case AssociationFailed => "unable to add product to the cart"
    case EmptyCart => "the cart has no products"
    case OrderCreationFailed(id) => "Unable to create order for clientId: " + Decimal(id)
    case OrderNotFound(id) => "order for clientId: " + Decimal(id) + " not found"
  }

  /**
   * A message that names a client carries the client's id right after its
   * fixed head, and reading that field back gives the id.
   */
  lemma MessageNamesClient(e: Error)
    ensures var m := Message(e);
      && (e.ClientNotFound? ==> 26 < |m| && SignedValue(m[16..|m| - 10]) == e.clientId)
      && (e.CartNotFound? ==> 30 < |m| && SignedValue(m[20..|m| - 10]) == e.clientId)
      && (e.OrderCreationFailed? ==> 37 < |m| && SignedValue(m[37..]) == e.clientId)
      && (e.OrderNotFound? ==> 30 < |m| && SignedValue(m[20..|m| - 10]) == e.clientId)
  {
    match e
    case ClientNotFound(id) => FieldOfInfix("client with id: ", Decimal(id), " not found");
    case CartNotFound(id) => FieldOfInfix("cart for client id: ", Decimal(id), " not found");
    case OrderCreationFailed(id) => FieldOfInfix("Unable to create order for clientId: ", Decimal(id), "");
    case OrderNotFound(id) => FieldOfInfix("order for clientId: ", Decimal(id), " not found");
    case _ =>
  }

  lemma FieldOfInfix(p: string, x: string, q: string)
    ensures (p + x + q)[|p|..|p + x + q| - |q|] == x
  {
    assert (p + x + q)[|p|..|p + x + q| - |q|] == x;
  }

  /** Characters 0, 1, 5 and 10 of each message; they differ between any two kinds of error. */
  function Landmarks(e: Error): (char, char, char, char)
  {
    match e
    case ClientNotFound(_) => ('c', 'l', 't', 'h')
    case CartNotFound(_) => ('c', 'a', 'f', 'l')
    case CartCreationFailed => ('c', 'a', 'n', 'o')
    case ProductNotFound => ('u', 'n', 'e', 'f')
    case ProductListUnavailable => ('u', 'n', 'e', 'r')
    case AssociationFailed => ('u', 'n', 'e', 'a')
    case EmptyCart => ('t', 'h', 'a', 'a')
    case OrderCreationFailed(_) => ('U', 'n', 'e', 'c')
    case OrderNotFound(_) => ('o', 'r', ' ', 'c')
  }

  predicate HasLandmarks(m: string, l: (char, char, char, char))
  {
    10 < |m| && m[0] == l.0 && m[1] == l.1 && m[5] == l.2 && m[10] == l.3
  }

  lemma MessageLandmarks(e: Error)
    ensures HasLandmarks(Message(e), Landmarks(e))
  {
    match e
    case ClientNotFound(id) => ClientNotFoundLandmarks(id);
    case CartNotFound(id) => CartNotFoundLandmarks(id);
    case OrderCreationFailed(id) => OrderCreationFailedLandmarks(id);
    case OrderNotFound(id) => OrderNotFoundLandmarks(id);
    case _ => FixedMessagesLandmarks();
  }

  lemma FixedMessagesLandmarks()
    ensures HasLandmarks(Message(CartCreationFailed), ('c', 'a', 'n', 'o'))
    ensures HasLandmarks(Message(ProductNotFound), ('u', 'n', 'e', 'f'))
    ensures HasLandmarks(Message(ProductListUnavailable), ('u', 'n', 'e', 'r'))
    ensures HasLandmarks(Message(AssociationFailed), ('u', 'n', 'e', 'a'))
    ensures HasLandmarks(Message(EmptyCart), ('t', 'h', 'a', 'a'))
  {
  }

  lemma ClientNotFoundLandmarks(id: int)
    ensures HasLandmarks(Message(ClientNotFound(id)), ('c', 'l', 't', 'h'))
  {
    HeadLandmarks("client with id: ", Decimal(id), " not found");
  }

  lemma CartNotFoundLandmarks(id: int)
    ensures HasLandmarks(Message(CartNotFound(id)), ('c', 'a', 'f', 'l'))
  {
    HeadLandmarks("cart for client id: ", Decimal(id), " not found");
  }

  lemma OrderCreationFailedLandmarks(id: int)
    ensures HasLandmarks(Message(OrderCreationFailed(id)), ('U', 'n', 'e', 'c'))
  {
    PrefixLandmarks("Unable to create order for clientId: ", Decimal(id));
  }

  lemma OrderNotFoundLandmarks(id: int)
    ensures HasLandmarks(Message(OrderNotFound(id)), ('o', 'r', ' ', 'c'))
  {
    HeadLandmarks("order for clientId: ", Decimal(id), " not found");
  }

  /** The landmarks of a message that starts with more than ten fixed characters are theirs. */
  lemma PrefixLandmarks(h: string, x: string)
    requires 10 < |h|
    ensures HasLandmarks(h + x, (h[0], h[1], h[5], h[10]))
  {
  }

  /** The same, for a message with a fixed tail after its rendered id. */
  lemma HeadLandmarks(h: string, x: string, q: string)
    requires 10 < |h|
    ensures HasLandmarks(h + x + q, (h[0], h[1], h[5], h[10]))
  {
  }

  /** Id-carrying messages: equal text means equal id. */
  lemma {:induction false} InfixInjective(p: string, x: string, y: string, q: string)
    requires p + x + q == p + y + q
    ensures x == y
  {
    assert |x| == |y|;
    assert x == (p + x + q)[|p|..|p| + |x|];
    assert y == (p + y + q)[|p|..|p| + |y|];
  }

  /** Every error of the core has its own message: the message determines the error. */
  lemma MessageInjective(e1: Error, e2: Error)
    requires Message(e1) == Message(e2)
    ensures e1 == e2
  {
    MessageLandmarks(e1);
    MessageLandmarks(e2);
    match e1
    case ClientNotFound(a) =>
      InfixInjective("client with id: ", Decimal(a), Decimal(e2.clientId), " not found");
      DecimalInjective(a, e2.clientId);
    case CartNotFound(a) =>
      InfixInjective("cart for client id: ", Decimal(a), Decimal(e2.clientId), " not found");
      DecimalInjective(a, e2.clientId);
    case OrderCreationFailed(a) =>
      InfixInjective("Unable to create order for clientId: ", Decimal(a), Decimal(e2.clientId), "");
      DecimalInjective(a, e2.clientId);
    case OrderNotFound(a) =>
      InfixInjective("order for clientId: ", Decimal(a), Decimal(e2.clientId), " not found");
      DecimalInjective(a, e2.clientId);
    case _ =>
  }
}
