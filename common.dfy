/** Vocabulary shared by every handler of the backend: identifiers, the user
    record, JavaScript truthiness of request fields, and the replies a handler
    sends (an HTTP status with a JSON body). */
module Common {

  /** Mongo ObjectIds, compared as their canonical hex strings. */
  type ProductId = string
  type UserId = string
  type OrderId = string

  /** A reading of `Date.now()`, supplied by the caller. */
  type Timestamp = int

  datatype Option<+T> = None | Some(value: T)

  /** JavaScript truthiness of an optional string field of a request body:
      `undefined` and `""` are falsy. */
  predicate Truthy(s: Option<string>) {
    s.Some? && s.value != ""
  }

  /** JavaScript truthiness of an optional number field: `undefined` and 0 are falsy. */
  predicate TruthyNumber(n: Option<int>) {
    n.Some? && n.value != 0
  }

  /** The user document (password hash left out). */
  datatype User = User(id: UserId, name: string, email: string, isAdmin: bool)

  const OK := 200
  const CREATED := 201
  const BAD_REQUEST := 400
  const UNAUTHORIZED := 401
  const FORBIDDEN := 403
  const NOT_FOUND := 404
  const SERVER_ERROR := 500

  /** The `message` bodies the handlers send. */
  datatype Message =
    | NoOrderItems                                        // "No order items"
    | ProductNotFoundNamed(itemName: string)              // "Product not found: <item.name>"
    | InsufficientStock(productName: string, available: int)
    | ProductNotFound                                     // "Product not found"
    | CartProductNotFound                                 // "Product not found." (cart add)
    | InvalidCartRequest                                  // "Product ID and valid quantity are required."
    | CartNotFound                                        // "Cart not found for this user."
    | NotInCart                                           // "Product not found in cart."
    | MissingProductFields                                // "Please provide all required product fields"
    | OrderNotFound                                       // "Order not found"
    | NotAuthorizedToView                                 // "Not authorized to view this order"
    | NotAuthorizedAsAdmin                                // "Not authorized as an admin"
    | TokenFailed                                         // "Not authorized, token failed"
    | NoToken                                             // "Not authorized, no token"
    | CouldNotCreateOrder                                 // "Server Error: Could not create order"
    | ProductRemoved                                      // "Product removed"
  {
    /** The HTTP status each message is sent with. */
    function Status(): int {
      match this
      case NoOrderItems => BAD_REQUEST
      case ProductNotFoundNamed(_) => NOT_FOUND
      case InsufficientStock(_, _) => BAD_REQUEST
      case ProductNotFound => NOT_FOUND
      case CartProductNotFound => NOT_FOUND
      case InvalidCartRequest => BAD_REQUEST
      case CartNotFound => NOT_FOUND
      case NotInCart => NOT_FOUND
      case MissingProductFields => BAD_REQUEST
      case OrderNotFound => NOT_FOUND
      case NotAuthorizedToView => FORBIDDEN
      case NotAuthorizedAsAdmin => FORBIDDEN
      case TokenFailed => UNAUTHORIZED
      case NoToken => UNAUTHORIZED
      case CouldNotCreateOrder => SERVER_ERROR
      case ProductRemoved => OK
    }
  }

  /** What a handler sends: a success status with a body, an error message
      (sent with `message.Status()`), or nothing at all. */
  datatype Reply<+T> = Success(code: int, body: T) | Failure(message: Message) | NoReply

  /** A schema Number field with `default: 0`: the value given, or 0 when
      it is left undefined. */
  function OrZero(n: Option<int>): int {
    if n.Some? then n.value else 0
  }
}
