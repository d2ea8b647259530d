/** The record types of the storefront's data layer: users, notifications, orders and
    products, as the client receives them from the backend services. Optional fields are
    `Option`s; fields the modelled code never reads are left out. */
module Types {
  import opened Wrappers

  datatype Role = Admin | Customer

  datatype User = User(
    id: string,
    email: string,
    firstName: string,
    lastName: string,
    role: Role,
    phoneNumber: Option<string>,
    twoFactorEnabled: bool,
    emailConfirmed: bool)

  datatype LoginResponse = LoginResponse(
    accessToken: string,
    refreshToken: string,
    expiresIn: int,
    user: User)

  datatype NotificationType = Email | Sms | InApp | Push
  datatype NotificationPriority = Low | Normal | High | Urgent

  datatype Notification = Notification(
    notificationId: string,
    userId: string,
    kind: NotificationType,
    subject: string,
    message: string,
    isRead: bool,
    priority: NotificationPriority,
    createdAt: string,
    readAt: Option<string>)

  datatype OrderStatus = Pending | Confirmed | Shipped | Delivered | Cancelled

  /** The status as the wire format spells it. */
  function StatusName(s: OrderStatus): (r: string)
    ensures r != ""
  {
    match s
    case Pending => "Pending"
    case Confirmed => "Confirmed"
    case Shipped => "Shipped"
    case Delivered => "Delivered"
    case Cancelled => "Cancelled"
  }

  datatype Order = Order(
    orderId: string,
    orderNumber: string,
    customerId: string,
    orderDate: string,
    status: OrderStatus,
    trackingNumber: Option<string>)

  datatype Product = Product(
    productId: string,
    name: string,
    sku: string,
    category: string,
    stockQuantity: int,
    reorderLevel: int,
    isActive: bool,
    imageUrl: Option<string>)
}
