/**
 * The records of the ordering backend. Times are whole seconds on an abstract clock,
 * money is an integer count of minor currency units, and a Go pointer is an `Option`.
 */
module Model {
  import opened Wrappers

  type Time = int

  datatype OrderItem = OrderItem(
    productId: int,
    name: string,
    price: int,
    quantity: int,
    veg: bool)

  datatype Order = Order(
    id: int,
    restaurantId: int,
    tableNumber: Option<string>,
    customerMobile: string,
    customerName: string,
    items: seq<OrderItem>,
    status: string,
    specialInstructions: string,
    total: int,
    assignedChefId: Option<int>,
    estimatedReadyAt: Option<Time>,
    createdAt: Time,
    updatedAt: Time,
    sessionToken: string)

  /** Order statuses. */
  const StatusPending: string := "pending"
  const StatusPreparing: string := "preparing"
  const StatusCompleted: string := "completed"
  const StatusCancelled: string := "cancelled"

  datatype Staff = Staff(
    id: int,
    restaurantId: int,
    username: string,
    pin: string,
    role: string,
    active: bool)

  /** Staff roles. */
  const RoleAdmin: string := "admin"
  const RoleChef: string := "chef"
  const RoleSuperuser: string := "superuser"

  datatype Restaurant = Restaurant(
    id: int,
    name: string,
    slug: string,
    address: string,
    phone: string,
    logo: string,
    currency: string,
    taxRate: int,
    active: bool)

  datatype Product = Product(
    id: int,
    restaurantId: int,
    categoryId: int,
    name: string,
    description: string,
    price: int,
    image: string,
    veg: bool,
    available: bool,
    prepTime: int)

  datatype Category = Category(
    id: int,
    restaurantId: int,
    name: string,
    order: int,
    image: string)

  datatype Rating = Rating(
    id: int,
    orderId: int,
    restaurantId: int,
    rating: int,
    comment: string)

  datatype Setting = Setting(
    id: int,
    restaurantId: int,
    key: string,
    value: string)

  /** One row of the per-chef load query: a chef and how many of its orders are open. */
  datatype ChefLoad = ChefLoad(chefId: int, orderCount: int)

  /** The per-phone OTP record kept in the cache. */
  datatype OtpData = OtpData(otp: string, attempts: int)

  /** A verified customer session kept in the cache. */
  datatype CustomerSession = CustomerSession(
    phoneNumber: string,
    restaurantId: int,
    verified: bool)

  datatype SendOtpRequest = SendOtpRequest(phoneNumber: string, restaurantId: int)
  datatype VerifyOtpRequest = VerifyOtpRequest(phoneNumber: string, otp: string, restaurantId: int)
  datatype OtpResponse = OtpResponse(message: string, expiresIn: int)
  datatype VerifyOtpResponse = VerifyOtpResponse(sessionToken: string, expiresAt: Time, phoneNumber: string)

  datatype LoginRequest = LoginRequest(username: string, pin: string)
  datatype LoginResponse = LoginResponse(token: string, expiresAt: Time, staff: Staff)
  datatype SuperuserLoginRequest = SuperuserLoginRequest(username: string, password: string)
  datatype SuperuserLoginResponse = SuperuserLoginResponse(
    token: string,
    expiresAt: Time,
    role: string,
    username: string)
}
