/** The storefront's records (types.ts). Optional flags are booleans whose absence reads as `false`. */
module Types {
  import opened Wrappers

  type Category = string

  /** A catalogue entry (types.ts:4-13). Prices are whole currency units. */
  datatype Product = Product(
    id: string,
    name: string,
    price: int,
    category: Category,
    description: string,
    image: string,
    isNew: bool,
    isFeatured: bool)

  /** A cart line: the product record as it was when first added, and how many (types.ts:15-17). */
  datatype CartItem = CartItem(product: Product, quantity: int)

  datatype PaymentMethod = Card | Cod | Bkash

  /** What the checkout form collects (types.ts:21-33); unused optional fields hold the empty string. */
  datatype CheckoutDetails = CheckoutDetails(
    fullName: string,
    email: string,
    phone: string,
    address: string,
    city: string,
    zip: string,
    paymentMethod: PaymentMethod,
    cardNumber: string,
    expiry: string,
    cvv: string,
    bkashTransactionId: string)

  datatype ViewState =
    | Home | Shop | Admin | Blog | TrackOrder | Login | Register | UserDashboard | VerifyOtp

  datatype UserRole = SuperAdmin | ShopAdmin | Customer

  /** An account (types.ts:39-45); the password is stored in plain text and may be absent. */
  datatype User = User(id: string, name: string, email: string, role: UserRole, password: Option<string>)

  /** The five fulfilment states an order can be set to (types.ts:113). */
  datatype OrderStatus = Pending | Processing | Shipped | Delivered | Cancelled

  /** A placed order: a snapshot of the cart and of the amounts computed at checkout (types.ts:105-114). */
  datatype Order = Order(
    id: string,
    date: string,
    details: CheckoutDetails,
    items: seq<CartItem>,
    total: int,
    discountApplied: real,
    finalTotal: real,
    status: OrderStatus)

  /** A promotion code (types.ts:116-120). */
  datatype Coupon = Coupon(code: string, discountPercent: int, isActive: bool)

  /** A customer review shown on the home page (types.ts:68-74). */
  datatype Testimonial = Testimonial(id: string, name: string, role: string, comment: string, rating: int)
}
