/** The persisted tables of `server/models/models.js`: one row type per model,
    the column defaults, and the constraints and associations as predicates
    over the tables. Every table also has an autoIncrement integer `id`, which
    is the key of its map (module Tables); a foreign key such as `basketId` is
    the key of the row it refers to. */
module Models {

  datatype User = User(email: string, password: string, role: string)

  /** A basket belongs to its user (User.hasOne(Basket)). */
  datatype Basket = Basket(userId: int)

  /** One line of a basket: a device and a quantity. */
  datatype BasketDevice = BasketDevice(basketId: int, deviceId: int, quantity: int)

  datatype Device = Device(name: string, price: int, rating: int, img: string, typeId: int, brandId: int)

  datatype DeviceType = DeviceType(name: string)

  datatype Brand = Brand(name: string)

  /** A rating has the columns `rate`, `userId` and `deviceId`, and no comment. */
  datatype Rating = Rating(userId: int, deviceId: int, rate: int)

  datatype DeviceInfo = DeviceInfo(deviceId: int, title: string, description: string)

  /** `createdAt` is the insertion time Sequelize records, as an opaque number. */
  datatype Order = Order(userId: int, total: int, address: string, status: string, createdAt: int)

  datatype OrderDevice = OrderDevice(orderId: int, deviceId: int, quantity: int)

  /** Column defaults. */
  const DefaultRole := "USER"
  const DefaultQuantity := 1
  const DefaultRating := 0
  const DefaultStatus := "pending"

  /** The statuses updateOrderStatus accepts. */
  const OrderStatuses := ["pending", "shipped", "delivered"]

  /** A new line as `BasketDevice.create({ basketId, deviceId })` stores it. */
  function NewBasketDevice(basketId: int, deviceId: int): BasketDevice
  {
    BasketDevice(basketId, deviceId, DefaultQuantity)
  }

  /** `email` is unique. */
  ghost predicate UniqueEmails(users: map<int, User>)
  {
    forall i, j :: i in users && j in users && users[i].email == users[j].email ==> i == j
  }

  /** A user has at most one basket, and every basket's user exists. */
  ghost predicate BasketsOwned(baskets: map<int, Basket>, users: map<int, User>)
  {
    && (forall k :: k in baskets ==> baskets[k].userId in users)
    && (forall i, j :: i in baskets && j in baskets && baskets[i].userId == baskets[j].userId ==> i == j)
  }

  /** Every line belongs to an existing basket, names an existing device and
      has a quantity of at least 1 (the column is non-null, default 1). */
  ghost predicate LinesOwned(lines: map<int, BasketDevice>, baskets: map<int, Basket>, devices: map<int, Device>)
  {
    forall k :: k in lines ==> lines[k].basketId in baskets && lines[k].deviceId in devices && lines[k].quantity >= 1
  }

  /** A basket holds a device in at most one line. */
  ghost predicate LinePairsUnique(lines: map<int, BasketDevice>)
  {
    forall i, j :: (i in lines && j in lines && lines[i].basketId == lines[j].basketId
                    && lines[i].deviceId == lines[j].deviceId) ==> i == j
  }

  /** Device, type and brand names are unique. */
  ghost predicate UniqueDeviceNames(devices: map<int, Device>)
  {
    forall i, j :: i in devices && j in devices && devices[i].name == devices[j].name ==> i == j
  }

  ghost predicate UniqueTypeNames(types: map<int, DeviceType>)
  {
    forall i, j :: i in types && j in types && types[i].name == types[j].name ==> i == j
  }

  ghost predicate UniqueBrandNames(brands: map<int, Brand>)
  {
    forall i, j :: i in brands && j in brands && brands[i].name == brands[j].name ==> i == j
  }

  /** Every info row belongs to an existing device. */
  ghost predicate InfosOwned(infos: map<int, DeviceInfo>, devices: map<int, Device>)
  {
    forall k :: k in infos ==> infos[k].deviceId in devices
  }

  /** Every rating is by an existing user, of an existing device, and
      between 1 and 5. */
  ghost predicate RatingsOwned(ratings: map<int, Rating>, devices: map<int, Device>, users: map<int, User>)
  {
    forall k :: k in ratings ==> ratings[k].userId in users && ratings[k].deviceId in devices && 1 <= ratings[k].rate <= 5
  }

  /** A user rates a device at most once. */
  ghost predicate RatingPairsUnique(ratings: map<int, Rating>)
  {
    forall i, j :: (i in ratings && j in ratings && ratings[i].userId == ratings[j].userId
                    && ratings[i].deviceId == ratings[j].deviceId) ==> i == j
  }

  /** Every order belongs to an existing user and has one of the known statuses. */
  ghost predicate OrdersOwned(orders: map<int, Order>, users: map<int, User>)
  {
    forall k :: k in orders ==> orders[k].userId in users && orders[k].status in OrderStatuses
  }

  /** Keys and creation times grow together. */
  ghost predicate OrdersChronological(orders: map<int, Order>)
  {
    forall i, j :: i in orders && j in orders && i < j ==> orders[i].createdAt <= orders[j].createdAt
  }

  /** Every order line belongs to an existing order. Its device may be gone:
      deleting a device leaves order lines alone. */
  ghost predicate OrderLinesOwned(orderDevices: map<int, OrderDevice>, orders: map<int, Order>)
  {
    forall k :: k in orderDevices ==> orderDevices[k].orderId in orders
  }
}
