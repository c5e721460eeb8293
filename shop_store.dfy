/** The server's controllers as methods on one in-memory store holding every
    table of the shop. Each method checks its guards in the order the
    controller does, answers Ok or Err, and, except where the controller
    itself writes before it fails, changes the tables only on success.
    `caller` is `req.user` as AuthMiddleware left it: None for an anonymous
    request, on which reading `req.user.id` throws and the controller's catch
    block answers an internal error. */
module Shop {
  import opened Errors
  import opened JsValues
  import opened Jwt
  import opened Tables
  import opened Models
  import opened EmailFormat

  /** The `comment` field of a rating request. NoComment: absent or null.
      CommentOther: a truthy value that is not a string. CommentFalsy: 0 or
      false, which pass the check. */
  datatype CommentArg = NoComment | CommentText(text: string) | CommentOther | CommentFalsy

  /** One element of the parsed `info` array; an absent field is "". */
  datatype InfoItem = InfoItem(title: string, description: string)

  /** The `info` field of a device request: absent or empty, text that is not
      JSON, JSON that is not an array, or an array of items. */
  datatype InfoArg = NoInfo | BadJson | NotArray | Items(items: seq<InfoItem>)

  /** A device as the basket lists it: the attributes id, name, price, img,
      brandId and typeId. */
  datatype DeviceSummary = DeviceSummary(id: int, name: string, price: int, img: string, brandId: int, typeId: int)

  datatype BasketReply = BasketReply(message: string, devices: seq<DeviceSummary>)

  /** One device of an order: the device's fields with that line's quantity. */
  datatype OrderedDevice = OrderedDevice(id: int, name: string, price: int, img: string, quantity: int)

  datatype UserRef = UserRef(id: int, email: string)

  /** An order as the order listings format it; `user` only in the admin listing. */
  datatype OrderView = OrderView(id: int, user: Option<UserRef>, total: int, address: string,
                                 status: string, createdAt: int, devices: seq<OrderedDevice>)

  datatype StatusReply = StatusReply(message: string, id: int, total: int, address: string, status: string, createdAt: int)

  datatype RatingReply = RatingReply(message: string, deviceName: string, userId: int, deviceId: int, rate: int)

  /** `{ token, user: { id, email, role } }`. */
  datatype Session = Session(token: string, user: Claims)

  datatype NamedRow = NamedRow(id: int, name: string)

  datatype InfoView = InfoView(id: int, title: string, description: string)

  datatype DeviceRow = DeviceRow(id: int, device: Device)

  /** A device with its type and brand (null when the row is gone) and its infos. */
  datatype DeviceDetail = DeviceDetail(id: int, device: Device, deviceType: Option<NamedRow>,
                                       brand: Option<NamedRow>, infos: seq<InfoView>)

  /** `{ count, rows }` of the device listing. */
  datatype DevicePage = DevicePage(count: int, rows: seq<DeviceDetail>)

  /** The role register stores: `role || 'USER'`. */
  function RoleOrDefault(role: Option<string>): string
  {
    if role.None? || role.value == [] then DefaultRole else role.value
  }

  /** A login field that passes `!x`. */
  predicate Given(x: Option<string>)
  {
    x.Some? && x.value != []
  }

  /** `!item.title || !item.description` does not reject the item. */
  predicate InfoItemComplete(item: InfoItem)
  {
    item.title != [] && item.description != []
  }

  /** How many items the info loop inserts before it stops: the length of
      the longest prefix of complete items. */
  function CompletePrefix(items: seq<InfoItem>): (n: nat)
    ensures n <= |items|
    ensures forall j :: 0 <= j < n ==> InfoItemComplete(items[j])
    ensures n < |items| ==> !InfoItemComplete(items[n])
    decreases |items|
  {
    if items == [] || !InfoItemComplete(items[0]) then 0 else 1 + CompletePrefix(items[1..])
  }

  function InfoRow(deviceId: int, item: InfoItem): DeviceInfo
  {
    DeviceInfo(deviceId, item.title, item.description)
  }

  /** The rows the info loop inserts for `items`: item i of the device gets
      key start + i. */
  function InfoRows(deviceId: int, items: seq<InfoItem>, start: int): (r: map<int, DeviceInfo>)
    ensures forall k :: k in r <==> start <= k < start + |items|
    ensures forall i :: 0 <= i < |items| ==> r[start + i] == InfoRow(deviceId, items[i])
    decreases |items|
  {
    if items == [] then map[]
    else InfoRows(deviceId, items[..|items| - 1], start)[start + |items| - 1 := InfoRow(deviceId, items[|items| - 1])]
  }

  /** The table after inserting one info row per item, in order. */
  function InsertInfos(t: Table<DeviceInfo>, deviceId: int, items: seq<InfoItem>): Table<DeviceInfo>
    decreases |items|
  {
    if items == [] then t
    else InsertInfos(t, deviceId, items[..|items| - 1]).Insert(InfoRow(deviceId, items[|items| - 1]))
  }

  /** Inserting the items one by one adds exactly InfoRows under the keys
      from `t.next` on. */
  lemma {:induction false} InsertInfosRows(t: Table<DeviceInfo>, deviceId: int, items: seq<InfoItem>)
    ensures InsertInfos(t, deviceId, items) == Table(t.rows + InfoRows(deviceId, items, t.next), t.next + |items|)
    decreases |items|
  {
    if items != [] {
      var front, last := items[..|items| - 1], InfoRow(deviceId, items[|items| - 1]);
      InsertInfosRows(t, deviceId, front);
      var k := t.next + |front|;
      assert InfoRows(deviceId, items, t.next) == InfoRows(deviceId, front, t.next)[k := last];
      assert (t.rows + InfoRows(deviceId, front, t.next))[k := last] == t.rows + InfoRows(deviceId, front, t.next)[k := last];
    }
  }

  /** `name.length > 50` and the non-blank test, shared by types and brands;
      `entity` is "Type" or "Brand". */
  function NameProblem(name: TextArg, entity: string): (r: Option<string>)
    ensures r.None? <==> name.Text? && Trim(name.s) != [] && Utf16Length(name.s) <= 50
    ensures r.Some? ==> r.value == entity + " name is required and must be a non-empty string"
                        || r.value == entity + " name must not exceed 50 characters"
  {
    if !IsNonBlankText(name) then Some(entity + " name is required and must be a non-empty string")
    else if Utf16Length(name.s) > 50 then Some(entity + " name must not exceed 50 characters")
    else None
  }

  /** A name that passes is text of at most 50 UTF-16 code units, and the
      trimmed form that gets stored is non-empty, at most as long and has no
      white space at either end. */
  lemma AcceptedNameStoredForm(name: TextArg, entity: string)
    requires NameProblem(name, entity).None?
    ensures name.Text? && Utf16Length(name.s) <= 50 && |name.s| <= 50
    ensures var t := Trim(name.s);
            && t != [] && |t| <= |name.s| && Utf16Length(t) <= Utf16Length(name.s)
            && !IsSpace(t[0]) && !IsSpace(t[|t| - 1])
  {
    TrimIsInnerSlice(name.s);
    TrimShortensUtf16(name.s);
  }

  /** 26 emoji are 26 characters but 52 code units: too long a name. */
  lemma WideNameIsTooLong(entity: string)
    ensures NameProblem(Text(seq(26, i => '\U{1F600}')), entity) == Some(entity + " name must not exceed 50 characters")
  {
    var s := seq(26, i => '\U{1F600}');
    Utf16LengthOfAstralText(s);
    TrimEmptyIff(s);
    assert !IsSpace(s[0]);
  }

  /** The device filter of getAll: `x && !isNaN(x)`, then `parseInt(x)`. A
      non-numeric value is no filter at all. */
  function QueryFilter(a: NumArg): (r: Option<int>)
    ensures r.Some? ==> a.Num? && r.value == a.n
    ensures a.Num? && !a.isNumber ==> r == Some(a.n)
    ensures a.Missing? || a.NotNumeric? || a == Num(0, true) ==> r.None?
  {
    if a.Num? && NumTruthy(a) then Some(a.n) else None
  }

  predicate MatchesFilters(d: Device, typeId: Option<int>, brandId: Option<int>)
  {
    (typeId.None? || d.typeId == typeId.value) && (brandId.None? || d.brandId == brandId.value)
  }

  /** A limit or page query value: `x = default` when absent, then
      `isNaN(x) || parseInt(x) <= 0` rejects it. */
  function QueryNumber(a: NumArg, default: int): (r: Option<int>)
    ensures a.Missing? ==> r == Some(default)
    ensures !a.Missing? && r.Some? ==> a.Num? && r.value == a.n && r.value >= 1
    ensures a.Num? && a.n >= 1 ==> r == Some(a.n)
  {
    match a
    case Missing => Some(default)
    case NotNumeric => None
    case Num(n, _) => if n <= 0 then None else Some(n)
  }

  /** The text field of an update: `if (x) updateData.x = x.trim()`. */
  function PatchText(a: TextArg, current: string): string
  {
    if a.Text? && a.s != [] then Trim(a.s) else current
  }

  /** A numeric field of an update: `if (x) updateData.x = parseInt(x)`. */
  function PatchNum(a: NumArg, current: int): int
  {
    if a.Num? && NumTruthy(a) then a.n else current
  }

  /** The device after `Device.update(updateData)`: only the fields present
      in the request are written. */
  function Patched(d: Device, name: TextArg, price: NumArg, typeId: NumArg, brandId: NumArg, file: Option<string>): Device
  {
    d.(name := PatchText(name, d.name), price := PatchNum(price, d.price), typeId := PatchNum(typeId, d.typeId),
       brandId := PatchNum(brandId, d.brandId), img := if file.Some? then "images/" + file.value else d.img)
  }

  /** An update leaves every field the request does not carry as it was, and
      never touches the rating. */
  lemma PatchKeepsAbsentFields(d: Device, name: TextArg, price: NumArg, typeId: NumArg, brandId: NumArg, file: Option<string>)
    ensures var p := Patched(d, name, price, typeId, brandId, file);
            && p.rating == d.rating
            && (!TextTruthy(name) ==> p.name == d.name)
            && (!NumTruthy(price) ==> p.price == d.price)
            && (!NumTruthy(typeId) ==> p.typeId == d.typeId)
            && (!NumTruthy(brandId) ==> p.brandId == d.brandId)
            && (file.None? ==> p.img == d.img)
            && (IsNonBlankText(name) ==> p.name == Trim(name.s))
            && (IsPositiveInt(price) ==> p.price == price.n)
  {
  }

  /** `Rating.findOne({ where: { deviceId, userId } })`, then update that
      row's rate or create a new row. */
  function Upsert(t: Table<Rating>, userId: int, deviceId: int, rate: int): (u: Table<Rating>)
    ensures u.next == t.next || u.next == t.next + 1
    ensures forall k :: k in t.rows ==> k in u.rows
    ensures forall k :: k in u.rows && k !in t.rows ==> k == t.next
  {
    match FirstKey(t.rows, (x: Rating) => x.userId == userId && x.deviceId == deviceId, 1, t.next)
    case Some(k) => t.(rows := t.rows[k := t.rows[k].(rate := rate)])
    case None => t.Insert(Rating(userId, deviceId, rate))
  }

  /** After an upsert there is exactly one rating of the pair, with the new
      rate; ratings of other users or other devices are untouched; no other
      row appears; and a user still rates a device at most once. */
  lemma UpsertRatesOnce(t: Table<Rating>, userId: int, deviceId: int, rate: int)
    requires t.WellKeyed() && RatingPairsUnique(t.rows)
    ensures var u := Upsert(t, userId, deviceId, rate);
            && u.WellKeyed() && RatingPairsUnique(u.rows)
            && (exists k :: k in u.rows && u.rows[k] == Rating(userId, deviceId, rate))
            && (forall k :: k in u.rows && u.rows[k].userId == userId && u.rows[k].deviceId == deviceId
                  ==> u.rows[k] == Rating(userId, deviceId, rate))
            && (forall k :: k in t.rows && (t.rows[k].userId != userId || t.rows[k].deviceId != deviceId)
                  ==> k in u.rows && u.rows[k] == t.rows[k])
            && (forall k :: k in u.rows && k !in t.rows ==> u.rows[k] == Rating(userId, deviceId, rate))
  {
    var p := (x: Rating) => x.userId == userId && x.deviceId == deviceId;
    var found := FirstKey(t.rows, p, 1, t.next);
    var u := Upsert(t, userId, deviceId, rate);
    match found
    case Some(k) =>
      assert u.rows == t.rows[k := Rating(userId, deviceId, rate)];
      assert u.rows[k] == Rating(userId, deviceId, rate);
    case None =>
      assert u.rows == t.rows[t.next := Rating(userId, deviceId, rate)];
      assert u.rows[t.next] == Rating(userId, deviceId, rate);
  }

  /** `!rate || typeof rate !== 'number' || !Number.isInteger(rate) || rate < 1 || rate > 5`
      does NOT reject rate. */
  predicate ValidRate(rate: NumArg)
  {
    rate.Num? && rate.isNumber && 1 <= rate.n <= 5
  }

  /** `comment && typeof comment !== 'string' || comment.length > 500` holds
      (for an absent comment the second operand throws instead). */
  predicate CommentRejected(comment: CommentArg)
  {
    comment.CommentOther? || (comment.CommentText? && Utf16Length(comment.text) > 500)
  }

  const CommentMessage := "Comment must be a string with a maximum length of 500 characters"

  /** The checks of deviceController.create that need no table, in order:
      the BadRequest message of the first one that fails. */
  function CreateFieldProblem(name: TextArg, price: NumArg, typeId: NumArg, brandId: NumArg, file: Option<string>): Option<string>
  {
    if !IsNonBlankText(name) then Some("Device name is required and must be a non-empty string")
    else if !IsPositiveInt(price) then Some("Price must be a positive number")
    else if !IsPositiveInt(typeId) then Some("Invalid type ID")
    else if !IsPositiveInt(brandId) then Some("Invalid brand ID")
    else if file.None? then Some("Image is required")
    else None
  }

  /** The row `Device.create` stores for an accepted request. */
  function NewDevice(name: TextArg, price: NumArg, typeId: NumArg, brandId: NumArg, file: Option<string>): Device
    requires CreateFieldProblem(name, price, typeId, brandId, file).None?
  {
    Device(Trim(name.s), price.n, DefaultRating, "images/" + file.value, typeId.n, brandId.n)
  }

  /** A request create accepts carries every field, and the stored device
      has the trimmed name, the parsed numbers, rating 0 and the uploaded
      image's path. */
  lemma CreateAcceptsCompleteRequests(name: TextArg, price: NumArg, typeId: NumArg, brandId: NumArg, file: Option<string>)
    ensures CreateFieldProblem(name, price, typeId, brandId, file).None? <==>
            IsNonBlankText(name) && IsPositiveInt(price) && IsPositiveInt(typeId) && IsPositiveInt(brandId) && file.Some?
    ensures CreateFieldProblem(name, price, typeId, brandId, file).None? ==>
            var d := NewDevice(name, price, typeId, brandId, file);
            && d.name == Trim(name.s) && d.name != [] && d.price > 0 && d.typeId > 0 && d.brandId > 0
            && d.rating == 0 && d.img == "images/" + file.value
  {
  }

  /** The checks of deviceController.update on the fields present in the
      request, in order: a field that is absent or falsy is not checked. */
  function UpdateFieldProblem(name: TextArg, price: NumArg, typeId: NumArg, brandId: NumArg): Option<string>
  {
    if TextTruthy(name) && !IsNonBlankText(name) then Some("Device name must be a non-empty string")
    else if NumTruthy(price) && !IsPositiveInt(price) then Some("Price must be a positive number")
    else if NumTruthy(typeId) && !IsPositiveInt(typeId) then Some("Invalid type ID")
    else if NumTruthy(brandId) && !IsPositiveInt(brandId) then Some("Invalid brand ID")
    else None
  }

  /** `DeviceInfo.destroy({ where: { deviceId } })`. */
  function InfosWithout(m: map<int, DeviceInfo>, deviceId: int): map<int, DeviceInfo>
  {
    Without(m, (x: DeviceInfo) => x.deviceId == deviceId)
  }

  /** `Rating.destroy({ where: { deviceId } })`. */
  function RatingsWithout(m: map<int, Rating>, deviceId: int): map<int, Rating>
  {
    Without(m, (x: Rating) => x.deviceId == deviceId)
  }

  /** `BasketDevice.destroy({ where: { deviceId } })`. */
  function LinesWithout(m: map<int, BasketDevice>, deviceId: int): map<int, BasketDevice>
  {
    Without(m, (x: BasketDevice) => x.deviceId == deviceId)
  }

  /** The BadRequest message of the info step, None when it gets through. */
  function InfoProblem(info: InfoArg): Option<string>
  {
    match info
    case NoInfo => None
    case BadJson => Some("Invalid JSON format in info field")
    case NotArray => Some("Info must be an array")
    case Items(items) =>
      if CompletePrefix(items) == |items| then None else Some("Device info must have title and description")
  }

  /** The info table after the info step for device `deviceId`: an array
      first deletes the device's rows when `replace` (update), then inserts
      its complete prefix. */
  function InfoAfter(t: Table<DeviceInfo>, deviceId: int, info: InfoArg, replace: bool): Table<DeviceInfo>
  {
    match info
    case Items(items) =>
      var base := if replace then InfosWithout(t.rows, deviceId) else t.rows;
      var n := CompletePrefix(items);
      Table(base + InfoRows(deviceId, items[..n], t.next), t.next + n)
    case _ => t
  }

  /** The info step touches no other device's rows; every row it adds
      belongs to the device, and it adds one per item up to the first
      incomplete item; on update the array replaces every earlier row of the
      device. */
  lemma InfoStepIsLocal(t: Table<DeviceInfo>, deviceId: int, info: InfoArg, replace: bool)
    requires t.WellKeyed()
    ensures var u := InfoAfter(t, deviceId, info, replace);
            && u.WellKeyed()
            && (forall k :: k in t.rows && t.rows[k].deviceId != deviceId ==> k in u.rows && u.rows[k] == t.rows[k])
            && (forall k :: k in u.rows && k !in t.rows ==> u.rows[k].deviceId == deviceId)
            && (!info.Items? ==> u == t)
            && (info.Items? && replace ==> forall k :: k in t.rows && t.rows[k].deviceId == deviceId ==> k !in u.rows)
            && (info.Items? ==> (u.next == t.next + CompletePrefix(info.items)
                 && forall i :: 0 <= i < CompletePrefix(info.items) ==> u.rows[t.next + i] == InfoRow(deviceId, info.items[i])))
  {
    if info.Items? {
      var n := CompletePrefix(info.items);
      var added := InfoRows(deviceId, info.items[..n], t.next);
      forall i | 0 <= i < n ensures added[t.next + i] == InfoRow(deviceId, info.items[i]) {
        assert info.items[..n][i] == info.items[i];
      }
      var u := InfoAfter(t, deviceId, info, replace);
      forall k | k in u.rows && k !in t.rows ensures u.rows[k].deviceId == deviceId {
        assert k in added;
        assert added[t.next + (k - t.next)] == InfoRow(deviceId, info.items[..n][k - t.next]);
      }
    }
  }

  /** The message of updateOrderStatus's status check. */
  function StatusMessage(): string
  {
    "Status must be one of " + Join(OrderStatuses, ", ")
  }

  /** `check`: a new token for the claims AuthMiddleware attached, or the
      internal error of destructuring a null `req.user`. */
  function CheckSession(user: Option<Claims>, sign: SignRequest -> string): (r: Result<Session>)
    ensures user.None? ==> r == Err(Internal, "Error checking user")
    ensures user.Some? ==> (r.Ok? && r.status == 200 && r.value.user == user.value
                            && r.value.token == sign(SignRequest(user.value, TokenLifetime)))
  {
    match user
    case None => Err(Internal, "Error checking user")
    case Some(c) => Ok(200, Session(GenerateJwt(sign, c.id, c.email, c.role), Claims(c.id, c.email, c.role)))
  }

  class ShopStore {
    var users: Table<User>
    var baskets: Table<Basket>
    var basketDevices: Table<BasketDevice>
    var devices: Table<Device>
    var types: Table<DeviceType>
    var brands: Table<Brand>
    var deviceInfos: Table<DeviceInfo>
    var ratings: Table<Rating>
    var orders: Table<Order>
    var orderDevices: Table<OrderDevice>

    /** Users have unique emails and at most one basket each. */
    ghost predicate AccountsValid()
      reads this`users, this`baskets
    {
      users.WellKeyed() && baskets.WellKeyed() && UniqueEmails(users.rows) && BasketsOwned(baskets.rows, users.rows)
    }

    /** Basket lines refer to a basket and a device, once per pair. */
    ghost predicate BasketLinesValid()
      reads this`basketDevices, this`baskets, this`devices
    {
      basketDevices.WellKeyed() && LinesOwned(basketDevices.rows, baskets.rows, devices.rows)
      && LinePairsUnique(basketDevices.rows)
    }

    /** Device, type and brand names are unique. */
    ghost predicate CatalogValid()
      reads this`devices, this`types, this`brands
    {
      devices.WellKeyed() && types.WellKeyed() && brands.WellKeyed()
      && UniqueDeviceNames(devices.rows) && UniqueTypeNames(types.rows) && UniqueBrandNames(brands.rows)
    }

    /** Info rows belong to a device. */
    ghost predicate InfosValid()
      reads this`deviceInfos, this`devices
    {
      deviceInfos.WellKeyed() && InfosOwned(deviceInfos.rows, devices.rows)
    }

    /** Ratings are by a user, of a device, between 1 and 5, once per user
        and device. */
    ghost predicate RatingsValid()
      reads this`ratings, this`devices, this`users
    {
      ratings.WellKeyed() && RatingsOwned(ratings.rows, devices.rows, users.rows) && RatingPairsUnique(ratings.rows)
    }

    /** Orders belong to a user, have a known status and are chronological;
        order lines belong to an order. */
    ghost predicate OrdersValid()
      reads this`orders, this`orderDevices, this`users
    {
      orders.WellKeyed() && orderDevices.WellKeyed() && OrdersOwned(orders.rows, users.rows)
      && OrdersChronological(orders.rows) && OrderLinesOwned(orderDevices.rows, orders.rows)
    }

    /** The constraints of the schema and the invariants the controllers keep. */
    ghost predicate Valid()
      reads this
    {
      AccountsValid() && BasketLinesValid() && CatalogValid() && InfosValid() && RatingsValid() && OrdersValid()
    }

    constructor ()
      ensures Valid()
      ensures users.rows == map[] && baskets.rows == map[] && basketDevices.rows == map[] && devices.rows == map[]
      ensures types.rows == map[] && brands.rows == map[] && deviceInfos.rows == map[] && ratings.rows == map[]
      ensures orders.rows == map[] && orderDevices.rows == map[]
      ensures users.next == 1 && baskets.next == 1 && basketDevices.next == 1 && devices.next == 1 && types.next == 1
      ensures brands.next == 1 && deviceInfos.next == 1 && ratings.next == 1 && orders.next == 1 && orderDevices.next == 1
    {
      users := Empty();
      baskets := Empty();
      basketDevices := Empty();
      devices := Empty();
      types := Empty();
      brands := Empty();
      deviceInfos := Empty();
      ratings := Empty();
      orders := Empty();
      orderDevices := Empty();
    }

    // ---------------------------------------------------------------- lookups

    /** `Basket.findOne({ where: { userId } })`. */
    function BasketOf(userId: int): (r: Option<int>)
      reads this`baskets
      ensures r.Some? ==> r.value in baskets.rows && baskets.rows[r.value].userId == userId
      ensures r.None? && baskets.WellKeyed() ==> forall k :: k in baskets.rows ==> baskets.rows[k].userId != userId
    {
      FirstKey(baskets.rows, (b: Basket) => b.userId == userId, 1, baskets.next)
    }

    /** `BasketDevice.findOne({ where: { basketId, deviceId } })`. */
    function LineOf(basketId: int, deviceId: int): (r: Option<int>)
      reads this`basketDevices
      ensures r.Some? ==> r.value in basketDevices.rows && basketDevices.rows[r.value].basketId == basketId
                          && basketDevices.rows[r.value].deviceId == deviceId
      ensures r.None? && basketDevices.WellKeyed() ==> forall k :: k in basketDevices.rows ==>
                          basketDevices.rows[k].basketId != basketId || basketDevices.rows[k].deviceId != deviceId
    {
      FirstKey(basketDevices.rows, (l: BasketDevice) => l.basketId == basketId && l.deviceId == deviceId, 1, basketDevices.next)
    }

    /** The keys of a basket's lines, newest first (`createdAt DESC`). */
    function BasketLineKeys(basketId: int): (ks: seq<int>)
      reads this`basketDevices
      ensures forall k :: k in ks <==> 1 <= k < basketDevices.next && k in basketDevices.rows
                                       && basketDevices.rows[k].basketId == basketId
      ensures forall i :: 0 <= i < |ks| ==> ks[i] in basketDevices.rows && basketDevices.rows[ks[i]].basketId == basketId
      ensures forall i, j :: 0 <= i < j < |ks| ==> ks[i] > ks[j]
    {
      KeysDesc(basketDevices.rows, (l: BasketDevice) => l.basketId == basketId, basketDevices.next)
    }

    function Summary(deviceId: int): DeviceSummary
      reads this`devices
      requires deviceId in devices.rows
    {
      var d := devices.rows[deviceId];
      DeviceSummary(deviceId, d.name, d.price, d.img, d.brandId, d.typeId)
    }

    /** `basket_devices.map(bd => bd.device)` over the lines `ks`. */
    function Summaries(ks: seq<int>): (r: seq<DeviceSummary>)
      reads this`basketDevices, this`devices
      requires forall i :: 0 <= i < |ks| ==> ks[i] in basketDevices.rows && basketDevices.rows[ks[i]].deviceId in devices.rows
      ensures |r| == |ks|
      ensures forall i :: 0 <= i < |ks| ==> r[i] == Summary(basketDevices.rows[ks[i]].deviceId)
    {
      if ks == [] then [] else [Summary(basketDevices.rows[ks[0]].deviceId)] + Summaries(ks[1..])
    }

    /** The device list of a basket: one entry per line, newest line first. */
    function BasketContents(basketId: int): seq<DeviceSummary>
      reads this`basketDevices, this`devices, this`baskets
      requires LinesOwned(basketDevices.rows, baskets.rows, devices.rows)
    {
      Summaries(BasketLineKeys(basketId))
    }

    // ------------------------------------------------------------ basket

    /** `BasketDevice.create({ basketId, deviceId })` of a pair the basket
        does not hold yet. */
    method InsertLine(b: int, d: int)
      requires Valid() && b in baskets.rows && d in devices.rows && LineOf(b, d).None?
      modifies this`basketDevices
      ensures Valid() && basketDevices == old(basketDevices).Insert(NewBasketDevice(b, d))
    {
      InsertIsFresh(basketDevices, NewBasketDevice(b, d));
      basketDevices := basketDevices.Insert(NewBasketDevice(b, d));
    }

    /** basketController.addDevice. */
    method AddDevice(caller: Option<Claims>, deviceId: NumArg) returns (r: Result<BasketReply>)
      requires Valid()
      modifies this`basketDevices
      ensures Valid()
      ensures caller.None? ==> r == Err(Internal, "Internal server error")
      ensures caller.Some? && !IsPositiveInt(deviceId) ==> r == Err(BadRequest, "Invalid device ID")
      ensures caller.Some? && IsPositiveInt(deviceId) && BasketOf(caller.value.id).None?
              ==> r == Err(NotFound, "Basket not found for user")
      ensures caller.Some? && IsPositiveInt(deviceId) && BasketOf(caller.value.id).Some? && deviceId.n !in devices.rows
              ==> r == Err(NotFound, "Device not found")
      ensures caller.Some? && IsPositiveInt(deviceId) && BasketOf(caller.value.id).Some? && deviceId.n in devices.rows
              && old(LineOf(BasketOf(caller.value.id).value, deviceId.n)).Some?
              ==> r == Err(BadRequest, "Device is already in basket")
      ensures r.Err? ==> basketDevices == old(basketDevices)
      ensures r.Ok? <==> caller.Some? && IsPositiveInt(deviceId) && BasketOf(caller.value.id).Some?
                         && deviceId.n in devices.rows
                         && old(LineOf(BasketOf(caller.value.id).value, deviceId.n)).None?
      ensures r.Ok? ==> var b := BasketOf(caller.value.id).value;
                        && basketDevices == old(basketDevices).Insert(NewBasketDevice(b, deviceId.n))
                        && r == Ok(200, BasketReply("Device " + devices.rows[deviceId.n].name + " added to basket",
                                                    BasketContents(b)))
    {
      if caller.None? {
        return Err(Internal, "Internal server error");
      }
      if !IsPositiveInt(deviceId) {
        return Err(BadRequest, "Invalid device ID");
      }
      var basket := BasketOf(caller.value.id);
      if basket.None? {
        return Err(NotFound, "Basket not found for user");
      }
      var b, d := basket.value, deviceId.n;
      if d !in devices.rows {
        return Err(NotFound, "Device not found");
      }
      if LineOf(b, d).Some? {
        return Err(BadRequest, "Device is already in basket");
      }
      InsertLine(b, d);
      r := Ok(200, BasketReply("Device " + devices.rows[d].name + " added to basket", BasketContents(b)));
    }

    /** basketController.getBasket. */
    method GetBasket(caller: Option<Claims>) returns (r: Result<seq<DeviceSummary>>)
      requires Valid()
      ensures caller.None? ==> r == Err(Internal, "Internal server error")
      ensures caller.Some? && BasketOf(caller.value.id).None? ==> r == Err(NotFound, "Basket not found for user")
      ensures caller.Some? && BasketOf(caller.value.id).Some?
              ==> r == Ok(200, BasketContents(BasketOf(caller.value.id).value))
    {
      if caller.None? {
        return Err(Internal, "Internal server error");
      }
      var basket := BasketOf(caller.value.id);
      if basket.None? {
        return Err(NotFound, "Basket not found for user");
      }
      return Ok(200, BasketContents(basket.value));
    }

    /** `basketDevice.destroy()`. */
    method DeleteLine(k: int)
      requires Valid() && k in basketDevices.rows
      modifies this`basketDevices
      ensures Valid() && basketDevices == old(basketDevices).(rows := old(basketDevices.rows) - {k})
    {
      basketDevices := basketDevices.(rows := basketDevices.rows - {k});
    }

    /** basketController.removeDevice: the whole line goes, whatever its quantity. */
    method RemoveDevice(caller: Option<Claims>, deviceId: NumArg) returns (r: Result<BasketReply>)
      requires Valid()
      modifies this`basketDevices
      ensures Valid()
      ensures caller.None? ==> r == Err(Internal, "Internal server error")
      ensures caller.Some? && !IsPositiveInt(deviceId) ==> r == Err(BadRequest, "Invalid device ID")
      ensures caller.Some? && IsPositiveInt(deviceId) && BasketOf(caller.value.id).None?
              ==> r == Err(NotFound, "Basket not found for user")
      ensures caller.Some? && IsPositiveInt(deviceId) && BasketOf(caller.value.id).Some?
              && old(LineOf(BasketOf(caller.value.id).value, deviceId.n)).None?
              ==> r == Err(NotFound, "Device not found in basket")
      ensures r.Err? ==> basketDevices == old(basketDevices)
      ensures r.Ok? <==> caller.Some? && IsPositiveInt(deviceId) && BasketOf(caller.value.id).Some?
                         && old(LineOf(BasketOf(caller.value.id).value, deviceId.n)).Some?
      ensures r.Ok? ==> var k := old(LineOf(BasketOf(caller.value.id).value, deviceId.n)).value;
                        && basketDevices == old(basketDevices).(rows := old(basketDevices.rows) - {k})
                        && r == Ok(200, BasketReply("Device " + devices.rows[deviceId.n].name + " removed from basket",
                                                    BasketContents(BasketOf(caller.value.id).value)))
    {
      if caller.None? {
        return Err(Internal, "Internal server error");
      }
      if !IsPositiveInt(deviceId) {
        return Err(BadRequest, "Invalid device ID");
      }
      var basket := BasketOf(caller.value.id);
      if basket.None? {
        return Err(NotFound, "Basket not found for user");
      }
      var line := LineOf(basket.value, deviceId.n);
      if line.None? {
        return Err(NotFound, "Device not found in basket");
      }
      var name := devices.rows[basketDevices.rows[line.value].deviceId].name;
      DeleteLine(line.value);
      r := Ok(200, BasketReply("Device " + name + " removed from basket", BasketContents(basket.value)));
    }

    /** `BasketDevice.findAll({ where: { basketId } })` finds nothing. */
    method IsBasketEmpty(b: int) returns (empty: bool)
      requires basketDevices.WellKeyed()
      ensures empty <==> forall k :: k in basketDevices.rows ==> basketDevices.rows[k].basketId != b
    {
      var p := (l: BasketDevice) => l.basketId == b;
      var lines := KeysAsc(basketDevices.rows, p, 1, basketDevices.next);
      NoKeysIff(basketDevices.rows, p, 1, basketDevices.next);
      empty := |lines| == 0;
    }

    /** `BasketDevice.destroy({ where: { basketId } })`. */
    method ClearBasket(b: int)
      requires Valid()
      modifies this`basketDevices
      ensures Valid()
      ensures basketDevices.next == old(basketDevices.next)
      ensures forall k :: k in basketDevices.rows <==> k in old(basketDevices.rows) && old(basketDevices.rows)[k].basketId != b
      ensures forall k :: k in basketDevices.rows ==> basketDevices.rows[k] == old(basketDevices.rows)[k]
    {
      var rest := Without(basketDevices.rows, (l: BasketDevice) => l.basketId == b);
      assert LinesOwned(rest, baskets.rows, devices.rows);
      assert LinePairsUnique(rest);
      basketDevices := basketDevices.(rows := rest);
    }

    /** basketController.checkout: empties the basket and creates no order. */
    method Checkout(caller: Option<Claims>) returns (r: Result<string>)
      requires Valid()
      modifies this`basketDevices
      ensures Valid()
      ensures caller.None? ==> r == Err(Internal, "Error processing checkout")
      ensures caller.Some? && BasketOf(caller.value.id).None? ==> r == Err(NotFound, "Basket not found for this user")
      ensures caller.Some? && BasketOf(caller.value.id).Some?
              && (forall k :: k in old(basketDevices.rows) ==> old(basketDevices.rows)[k].basketId != BasketOf(caller.value.id).value)
              ==> r == Err(BadRequest, "Basket is empty")
      ensures r.Err? ==> basketDevices == old(basketDevices)
      ensures r.Ok? <==> caller.Some? && BasketOf(caller.value.id).Some?
                         && exists k :: k in old(basketDevices.rows) && old(basketDevices.rows)[k].basketId == BasketOf(caller.value.id).value
      ensures r.Ok? ==> r == Ok(200, "Checkout successful, basket cleared")
      ensures r.Ok? ==> var b := BasketOf(caller.value.id).value;
                        && (exists k :: k in old(basketDevices.rows) && old(basketDevices.rows)[k].basketId == b)
                        && basketDevices.next == old(basketDevices.next)
                        && (forall k :: k in basketDevices.rows <==> k in old(basketDevices.rows) && old(basketDevices.rows)[k].basketId != b)
                        && (forall k :: k in basketDevices.rows ==> basketDevices.rows[k] == old(basketDevices.rows)[k])
      ensures orders == old(orders) && orderDevices == old(orderDevices)
    {
      if caller.None? {
        return Err(Internal, "Error processing checkout");
      }
      var basket := BasketOf(caller.value.id);
      if basket.None? {
        return Err(NotFound, "Basket not found for this user");
      }
      var b := basket.value;
      var empty := IsBasketEmpty(b);
      if empty {
        return Err(BadRequest, "Basket is empty");
      }
      ClearBasket(b);
      r := Ok(200, "Checkout successful, basket cleared");
    }
    // ------------------------------------------------------------ orders

    /** A user's orders, newest first. */
    function UserOrderKeys(userId: int): (ks: seq<int>)
      reads this`orders
      ensures forall k :: k in ks <==> 1 <= k < orders.next && k in orders.rows && orders.rows[k].userId == userId
      ensures forall i :: 0 <= i < |ks| ==> ks[i] in orders.rows && orders.rows[ks[i]].userId == userId
      ensures forall i, j :: 0 <= i < j < |ks| ==> ks[i] > ks[j]
    {
      KeysDesc(orders.rows, (o: Order) => o.userId == userId, orders.next)
    }

    /** Every order, newest first. */
    function AllOrderKeys(): (ks: seq<int>)
      reads this`orders
      ensures forall k :: k in ks <==> 1 <= k < orders.next && k in orders.rows
      ensures forall i :: 0 <= i < |ks| ==> ks[i] in orders.rows
      ensures forall i, j :: 0 <= i < j < |ks| ==> ks[i] > ks[j]
    {
      KeysDesc(orders.rows, (o: Order) => true, orders.next)
    }

    /** The lines of an order, in key order. */
    function OrderLineKeys(orderId: int): (ks: seq<int>)
      reads this`orderDevices
      ensures forall k :: k in ks <==> 1 <= k < orderDevices.next && k in orderDevices.rows
                                       && orderDevices.rows[k].orderId == orderId
      ensures forall i :: 0 <= i < |ks| ==> ks[i] in orderDevices.rows && orderDevices.rows[ks[i]].orderId == orderId
    {
      KeysAsc(orderDevices.rows, (l: OrderDevice) => l.orderId == orderId, 1, orderDevices.next)
    }

    function Ordered(lineKey: int): OrderedDevice
      reads this`orderDevices, this`devices
      requires lineKey in orderDevices.rows && orderDevices.rows[lineKey].deviceId in devices.rows
    {
      var line := orderDevices.rows[lineKey];
      var d := devices.rows[line.deviceId];
      OrderedDevice(line.deviceId, d.name, d.price, d.img, line.quantity)
    }

    /** `order_devices.map(od => ({ id: od.device.id, ... }))`: None when a
        line's device is gone, so that `od.device.id` throws. */
    function OrderedDevices(ks: seq<int>): (r: Option<seq<OrderedDevice>>)
      reads this`orderDevices, this`devices
      requires forall i :: 0 <= i < |ks| ==> ks[i] in orderDevices.rows
      ensures r.Some? <==> forall i :: 0 <= i < |ks| ==> orderDevices.rows[ks[i]].deviceId in devices.rows
      ensures r.Some? ==> |r.value| == |ks| && forall i :: 0 <= i < |ks| ==> r.value[i] == Ordered(ks[i])
    {
      if ks == [] then Some([])
      else if orderDevices.rows[ks[0]].deviceId !in devices.rows then None
      else match OrderedDevices(ks[1..])
        case None => None
        case Some(rest) => Some([Ordered(ks[0])] + rest)
    }

    /** Formatting order `k` does not throw: every line's device is still there. */
    predicate Formattable(k: int)
      reads this`orderDevices, this`devices
    {
      OrderedDevices(OrderLineKeys(k)).Some?
    }

    /** The order `k` as a listing formats it; with its user when `withUser`. */
    function View(k: int, withUser: bool): OrderView
      reads this`orders, this`orderDevices, this`devices, this`users
      requires k in orders.rows && Formattable(k)
      requires withUser ==> orders.rows[k].userId in users.rows
    {
      var o := orders.rows[k];
      var user := if withUser then Some(UserRef(o.userId, users.rows[o.userId].email)) else None;
      OrderView(k, user, o.total, o.address, o.status, o.createdAt, OrderedDevices(OrderLineKeys(k)).value)
    }

    /** `orders.map(...)` over the orders `ks`, when formatting none of them throws. */
    function Views(ks: seq<int>, withUser: bool): (r: seq<OrderView>)
      reads this
      requires forall i :: 0 <= i < |ks| ==> ks[i] in orders.rows && Formattable(ks[i])
      requires withUser ==> forall i :: 0 <= i < |ks| ==> orders.rows[ks[i]].userId in users.rows
      ensures |r| == |ks|
      ensures forall i :: 0 <= i < |ks| ==> r[i] == View(ks[i], withUser)
    {
      seq(|ks|, i reads this
                  requires 0 <= i < |ks| && ks[i] in orders.rows && Formattable(ks[i])
                  requires withUser ==> orders.rows[ks[i]].userId in users.rows
                  => View(ks[i], withUser))
    }

    /** orderController.getOrders: the caller's orders, newest first. */
    method GetOrders(caller: Option<Claims>) returns (r: Result<seq<OrderView>>)
      requires Valid()
      ensures caller.None? ==> r == Err(Internal, "Error retrieving orders")
      ensures caller.Some? ==> var ks := UserOrderKeys(caller.value.id);
                               && ((exists i :: 0 <= i < |ks| && !Formattable(ks[i])) ==> r == Err(Internal, "Error retrieving orders"))
                               && ((forall i :: 0 <= i < |ks| ==> Formattable(ks[i])) ==> r == Ok(200, Views(ks, false)))
    {
      if caller.None? {
        return Err(Internal, "Error retrieving orders");
      }
      var ks := UserOrderKeys(caller.value.id);
      if exists i :: 0 <= i < |ks| && !Formattable(ks[i]) {
        return Err(Internal, "Error retrieving orders");
      }
      r := Ok(200, Views(ks, false));
    }

    /** orderController.getAllOrders: every order with its user, newest first,
        for an administrator only. */
    method GetAllOrders(caller: Option<Claims>) returns (r: Result<seq<OrderView>>)
      requires Valid()
      ensures caller.None? ==> r == Err(Internal, "Error retrieving all orders")
      ensures caller.Some? && caller.value.role != "ADMIN" ==> r == Err(Forbidden, "Access denied: Admin only")
      ensures caller.Some? && caller.value.role == "ADMIN" ==> var ks := AllOrderKeys();
                               && ((exists i :: 0 <= i < |ks| && !Formattable(ks[i])) ==> r == Err(Internal, "Error retrieving all orders"))
                               && ((forall i :: 0 <= i < |ks| ==> Formattable(ks[i])) ==> r == Ok(200, Views(ks, true)))
    {
      if caller.None? {
        return Err(Internal, "Error retrieving all orders");
      }
      if caller.value.role != "ADMIN" {
        return Err(Forbidden, "Access denied: Admin only");
      }
      var ks := AllOrderKeys();
      if exists i :: 0 <= i < |ks| && !Formattable(ks[i]) {
        return Err(Internal, "Error retrieving all orders");
      }
      r := Ok(200, Views(ks, true));
    }

    /** A listing of orders in decreasing key order is newest first. */
    lemma ListingNewestFirst(ks: seq<int>, withUser: bool)
      requires Valid()
      requires forall i :: 0 <= i < |ks| ==> ks[i] in orders.rows && Formattable(ks[i])
      requires forall i, j :: 0 <= i < j < |ks| ==> ks[i] > ks[j]
      ensures withUser ==> forall i :: 0 <= i < |ks| ==> orders.rows[ks[i]].userId in users.rows
      ensures var vs := Views(ks, withUser);
              forall i, j :: 0 <= i < j < |vs| ==> vs[i].id > vs[j].id && vs[i].createdAt >= vs[j].createdAt
    {
      var vs := Views(ks, withUser);
      forall i, j | 0 <= i < j < |vs| ensures vs[i].id > vs[j].id && vs[i].createdAt >= vs[j].createdAt {
        assert vs[i] == View(ks[i], withUser) && vs[j] == View(ks[j], withUser);
        assert orders.rows[ks[j]].createdAt <= orders.rows[ks[i]].createdAt;
      }
    }

    /** getOrders lists exactly the caller's orders, each once, newest first,
        without the user. */
    lemma UserListingIsComplete(userId: int)
      requires Valid()
      requires forall i :: 0 <= i < |UserOrderKeys(userId)| ==> Formattable(UserOrderKeys(userId)[i])
      ensures var vs := Views(UserOrderKeys(userId), false);
              && (forall i :: 0 <= i < |vs| ==> vs[i].id in orders.rows && orders.rows[vs[i].id].userId == userId
                                                && vs[i].user.None?)
              && (forall k :: k in orders.rows && orders.rows[k].userId == userId ==>
                                exists i :: 0 <= i < |vs| && vs[i].id == k)
              && (forall i, j :: 0 <= i < j < |vs| ==> vs[i].id > vs[j].id && vs[i].createdAt >= vs[j].createdAt)
    {
      var ks := UserOrderKeys(userId);
      var vs := Views(ks, false);
      ListingNewestFirst(ks, false);
      forall k | k in orders.rows && orders.rows[k].userId == userId
        ensures exists i :: 0 <= i < |vs| && vs[i].id == k
      {
        assert k in ks;
        var i :| 0 <= i < |ks| && ks[i] == k;
        assert vs[i].id == k;
      }
    }

    /** getAllOrders lists every order once, newest first, each with the user
        it belongs to. */
    lemma AdminListingIsComplete()
      requires Valid()
      requires forall i :: 0 <= i < |AllOrderKeys()| ==> Formattable(AllOrderKeys()[i])
      ensures forall i :: 0 <= i < |AllOrderKeys()| ==> orders.rows[AllOrderKeys()[i]].userId in users.rows
      ensures var vs := Views(AllOrderKeys(), true);
              && (forall i :: 0 <= i < |vs| ==> (vs[i].id in orders.rows && vs[i].user.Some?
                                                 && vs[i].user.value.id == orders.rows[vs[i].id].userId
                                                 && vs[i].user.value.email == users.rows[vs[i].user.value.id].email))
              && (forall k :: k in orders.rows ==> exists i :: 0 <= i < |vs| && vs[i].id == k)
              && (forall i, j :: 0 <= i < j < |vs| ==> vs[i].id > vs[j].id && vs[i].createdAt >= vs[j].createdAt)
    {
      var ks := AllOrderKeys();
      ListingNewestFirst(ks, true);
      var vs := Views(ks, true);
      forall i | 0 <= i < |vs|
        ensures vs[i].id in orders.rows && vs[i].user.Some? && vs[i].user.value.id == orders.rows[vs[i].id].userId
                && vs[i].user.value.email == users.rows[vs[i].user.value.id].email
      {
        assert vs[i] == View(ks[i], true);
      }
      forall k | k in orders.rows
        ensures exists i :: 0 <= i < |vs| && vs[i].id == k
      {
        assert k in ks;
        var i :| 0 <= i < |ks| && ks[i] == k;
        assert vs[i].id == k;
      }
    }

    /** orderController.updateOrderStatus: an administrator sets the status of
        an existing order to one of the known statuses. */
    method UpdateOrderStatus(caller: Option<Claims>, orderId: NumArg, status: Option<string>) returns (r: Result<StatusReply>)
      requires Valid()
      modifies this`orders
      ensures Valid()
      ensures caller.None? ==> r == Err(Internal, "Error updating order status")
      ensures caller.Some? && caller.value.role != "ADMIN" ==> r == Err(Forbidden, "Access denied: Admin only")
      ensures caller.Some? && caller.value.role == "ADMIN" && !IsPositiveNumber(orderId)
              ==> r == Err(BadRequest, "Invalid order ID")
      ensures caller.Some? && caller.value.role == "ADMIN" && IsPositiveNumber(orderId)
              && !(status.Some? && status.value in OrderStatuses)
              ==> r == Err(BadRequest, StatusMessage())
      ensures caller.Some? && caller.value.role == "ADMIN" && IsPositiveNumber(orderId)
              && status.Some? && status.value in OrderStatuses && orderId.n !in old(orders.rows)
              ==> r == Err(NotFound, "Order with ID " + IntToString(orderId.n) + " not found")
      ensures r.Err? ==> orders == old(orders)
      ensures r.Ok? <==> caller.Some? && caller.value.role == "ADMIN" && IsPositiveNumber(orderId)
                         && status.Some? && status.value in OrderStatuses && orderId.n in old(orders.rows)
      ensures r.Ok? ==> var n, o := orderId.n, old(orders.rows)[orderId.n];
                        && orders == old(orders).(rows := old(orders.rows)[n := o.(status := status.value)])
                        && r == Ok(200, StatusReply("Order " + IntToString(n) + " status updated to " + status.value,
                                                    n, o.total, o.address, status.value, o.createdAt))
    {
      if caller.None? {
        return Err(Internal, "Error updating order status");
      }
      if caller.value.role != "ADMIN" {
        return Err(Forbidden, "Access denied: Admin only");
      }
      if !IsPositiveNumber(orderId) {
        return Err(BadRequest, "Invalid order ID");
      }
      if status.None? || status.value == [] || status.value !in OrderStatuses {
        return Err(BadRequest, StatusMessage());
      }
      var n := orderId.n;
      if n !in orders.rows {
        return Err(NotFound, "Order with ID " + IntToString(n) + " not found");
      }
      var o := orders.rows[n];
      orders := orders.(rows := orders.rows[n := o.(status := status.value)]);
      r := Ok(200, StatusReply("Order " + IntToString(n) + " status updated to " + status.value,
                               n, o.total, o.address, status.value, o.createdAt));
    }

    // ------------------------------------------------------------ ratings

    /** ratingController.rateDevice: the caller's rating of a device is created
        or replaced; the comment is checked but has no column to go to. */
    method RateDevice(caller: Option<Claims>, deviceId: NumArg, rate: NumArg, comment: CommentArg)
      returns (r: Result<RatingReply>)
      requires Valid()
      modifies this`ratings
      ensures Valid()
      ensures caller.None? ==> r == Err(Internal, "Error rating device")
      ensures caller.Some? && !IsPositiveNumber(deviceId) ==> r == Err(BadRequest, "Invalid device ID")
      ensures caller.Some? && IsPositiveNumber(deviceId) && !ValidRate(rate)
              ==> r == Err(BadRequest, "Rate must be a number between 1 and 5")
      ensures caller.Some? && IsPositiveNumber(deviceId) && ValidRate(rate) && CommentRejected(comment)
              ==> r == Err(BadRequest, CommentMessage)
      ensures caller.Some? && IsPositiveNumber(deviceId) && ValidRate(rate) && comment.NoComment?
              ==> r == Err(Internal, "Error rating device")
      ensures caller.Some? && IsPositiveNumber(deviceId) && ValidRate(rate) && !comment.NoComment?
              && !CommentRejected(comment) && deviceId.n !in devices.rows
              ==> r == Err(BadRequest, "Device not found")
      ensures caller.Some? && IsPositiveNumber(deviceId) && ValidRate(rate) && !comment.NoComment?
              && !CommentRejected(comment) && deviceId.n in devices.rows && caller.value.id !in users.rows
              ==> r == Err(Internal, "Error rating device")
      ensures r.Err? ==> ratings == old(ratings)
      ensures r.Ok? <==> caller.Some? && IsPositiveNumber(deviceId) && ValidRate(rate) && !comment.NoComment?
                         && !CommentRejected(comment) && deviceId.n in devices.rows && caller.value.id in users.rows
      ensures r.Ok? ==> var u, d := caller.value.id, deviceId.n;
                        && ratings == Upsert(old(ratings), u, d, rate.n)
                        && r == Ok(200, RatingReply("Rating for device with id " + IntToString(d) + " updated successfully",
                                                    devices.rows[d].name, u, d, rate.n))
    {
      if caller.None? {
        return Err(Internal, "Error rating device");
      }
      if !IsPositiveNumber(deviceId) {
        return Err(BadRequest, "Invalid device ID");
      }
      if !ValidRate(rate) {
        return Err(BadRequest, "Rate must be a number between 1 and 5");
      }
      if CommentRejected(comment) {
        return Err(BadRequest, CommentMessage);
      }
      if comment.NoComment? {
        return Err(Internal, "Error rating device");
      }
      var u, d := caller.value.id, deviceId.n;
      if d !in devices.rows {
        return Err(BadRequest, "Device not found");
      }
      if u !in users.rows {
        // No rating of this user exists (RatingsValid), so Rating.create
        // runs and breaks the foreign key to users.
        return Err(Internal, "Error rating device");
      }
      UpsertRatesOnce(ratings, u, d, rate.n);
      ratings := Upsert(ratings, u, d, rate.n);
      r := Ok(200, RatingReply("Rating for device with id " + IntToString(d) + " updated successfully",
                               devices.rows[d].name, u, d, rate.n));
    }

    // ------------------------------------------------------------ users

    /** `User.findOne({ where: { email } })`. */
    function UserByEmail(email: string): (r: Option<int>)
      reads this`users
      ensures r.Some? ==> r.value in users.rows && users.rows[r.value].email == email
      ensures r.None? && users.WellKeyed() ==> forall k :: k in users.rows ==> users.rows[k].email != email
    {
      FirstKey(users.rows, (u: User) => u.email == email, 1, users.next)
    }

    /** `User.create(...)` of a user whose e-mail is free. */
    method InsertUser(u: User)
      requires Valid() && UserByEmail(u.email).None?
      modifies this`users
      ensures Valid() && users == old(users).Insert(u)
    {
      InsertIsFresh(users, u);
      users := users.Insert(u);
    }

    /** `Basket.create({ userId })` for a user without a basket. */
    method InsertBasket(userId: int)
      requires Valid() && userId in users.rows && BasketOf(userId).None?
      modifies this`baskets
      ensures Valid() && baskets == old(baskets).Insert(Basket(userId))
    {
      InsertIsFresh(baskets, Basket(userId));
      baskets := baskets.Insert(Basket(userId));
    }

    /** userController.register: a new user with a hashed password and an
        empty basket, answered with a token. `hash` is bcrypt and `sign` the
        JWT signer. */
    method Register(email: Option<string>, password: Option<string>, role: Option<string>,
                    hash: string -> string, sign: SignRequest -> string) returns (reply: Reply<Session>)
      requires Valid()
      modifies this`users, this`baskets
      ensures Valid()
      ensures !Given(email) || !Given(password) ==> reply == Answered(Err(BadRequest, "Email and password are required"))
      ensures Given(email) && Given(password) && !MatchesEmailPattern(email.value)
              ==> reply == Answered(Err(BadRequest, "Invalid email format"))
      ensures Given(email) && Given(password) && MatchesEmailPattern(email.value) && old(UserByEmail(email.value)).Some?
              ==> reply == Unanswered
      ensures !(reply.Answered? && reply.result.Ok?) ==> users == old(users) && baskets == old(baskets)
      ensures reply.Answered? && reply.result.Ok? <==>
                Given(email) && Given(password) && MatchesEmailPattern(email.value) && old(UserByEmail(email.value)).None?
      ensures reply.Answered? && reply.result.Ok? ==>
                var id, rl := old(users.next), RoleOrDefault(role);
                && users == old(users).Insert(User(email.value, hash(password.value), rl))
                && baskets == old(baskets).Insert(Basket(id))
                && reply.result == Ok(201, Session(GenerateJwt(sign, id, email.value, rl), Claims(id, email.value, rl)))
    {
      if !Given(email) || !Given(password) {
        return Answered(Err(BadRequest, "Email and password are required"));
      }
      var e, p := email.value, password.value;
      if !MatchesEmailPattern(e) {
        return Answered(Err(BadRequest, "Invalid email format"));
      }
      if UserByEmail(e).Some? {
        return Unanswered;
      }
      var id, rl := users.next, RoleOrDefault(role);
      InsertUser(User(e, hash(p), rl));
      InsertBasket(id);
      reply := Answered(Ok(201, Session(GenerateJwt(sign, id, e, rl), Claims(id, e, rl))));
    }

    /** userController.login. An unknown email and a wrong password get the
        same answer. `compare` is bcrypt's comparison of a password with a hash. */
    method Login(email: Option<string>, password: Option<string>, compare: (string, string) -> bool,
                 sign: SignRequest -> string) returns (r: Result<Session>)
      requires Valid()
      ensures !Given(email) || !Given(password) ==> r == Err(BadRequest, "Email and password are required")
      ensures Given(email) && Given(password) && UserByEmail(email.value).None?
              ==> r == Err(Unauthorized, "Invalid email or password")
      ensures Given(email) && Given(password) && UserByEmail(email.value).Some?
              && !compare(password.value, users.rows[UserByEmail(email.value).value].password)
              ==> r == Err(Unauthorized, "Invalid email or password")
      ensures r.Ok? <==> Given(email) && Given(password)
                         && exists k :: k in users.rows && users.rows[k].email == email.value
                                        && compare(password.value, users.rows[k].password)
      ensures r.Ok? ==> var k := UserByEmail(email.value).value;
                        var u := users.rows[k];
                        r == Ok(200, Session(GenerateJwt(sign, k, u.email, u.role), Claims(k, u.email, u.role)))
    {
      if !Given(email) || !Given(password) {
        return Err(BadRequest, "Email and password are required");
      }
      var found := UserByEmail(email.value);
      if found.None? {
        return Err(Unauthorized, "Invalid email or password");
      }
      var k := found.value;
      var u := users.rows[k];
      if !compare(password.value, u.password) {
        return Err(Unauthorized, "Invalid email or password");
      }
      r := Ok(200, Session(GenerateJwt(sign, k, u.email, u.role), Claims(k, u.email, u.role)));
    }
    // ------------------------------------------------------------ devices

    /** `Device.findOne({ where: { name } })`. */
    function DeviceByName(name: string): (r: Option<int>)
      reads this`devices
      ensures r.Some? ==> r.value in devices.rows && devices.rows[r.value].name == name
      ensures r.None? && devices.WellKeyed() ==> forall k :: k in devices.rows ==> devices.rows[k].name != name
    {
      FirstKey(devices.rows, (d: Device) => d.name == name, 1, devices.next)
    }

    /** A device other than `id` is called `name`: storing `name` for `id`
        violates the unique constraint. */
    predicate NameTakenByOther(name: string, id: int)
      reads this`devices
    {
      exists k :: k in devices.rows && k != id && devices.rows[k].name == name
    }

    /** The info rows of a device, in key order. */
    function InfoKeys(deviceId: int): (ks: seq<int>)
      reads this`deviceInfos
      ensures forall k :: k in ks <==> 1 <= k < deviceInfos.next && k in deviceInfos.rows
                                       && deviceInfos.rows[k].deviceId == deviceId
      ensures forall i :: 0 <= i < |ks| ==> ks[i] in deviceInfos.rows && deviceInfos.rows[ks[i]].deviceId == deviceId
      ensures forall i, j :: 0 <= i < j < |ks| ==> ks[i] < ks[j]
    {
      KeysAsc(deviceInfos.rows, (x: DeviceInfo) => x.deviceId == deviceId, 1, deviceInfos.next)
    }

    function InfoViews(ks: seq<int>): (r: seq<InfoView>)
      reads this
      requires forall i :: 0 <= i < |ks| ==> ks[i] in deviceInfos.rows
      ensures |r| == |ks|
      ensures forall i :: 0 <= i < |ks| ==> r[i] == InfoView(ks[i], deviceInfos.rows[ks[i]].title, deviceInfos.rows[ks[i]].description)
    {
      seq(|ks|, i reads this requires 0 <= i < |ks| && ks[i] in deviceInfos.rows
                  => InfoView(ks[i], deviceInfos.rows[ks[i]].title, deviceInfos.rows[ks[i]].description))
    }

    /** `{ model: Type, attributes: ['id', 'name'] }`: null when the row is gone. */
    function TypeRef(typeId: int): (r: Option<NamedRow>)
      reads this`types
      ensures r.Some? <==> typeId in types.rows
      ensures r.Some? ==> r.value == NamedRow(typeId, types.rows[typeId].name)
    {
      if typeId in types.rows then Some(NamedRow(typeId, types.rows[typeId].name)) else None
    }

    function BrandRef(brandId: int): (r: Option<NamedRow>)
      reads this`brands
      ensures r.Some? <==> brandId in brands.rows
      ensures r.Some? ==> r.value == NamedRow(brandId, brands.rows[brandId].name)
    {
      if brandId in brands.rows then Some(NamedRow(brandId, brands.rows[brandId].name)) else None
    }

    /** A device with its type, its brand and its info rows. */
    function Detail(k: int): DeviceDetail
      reads this
      requires k in devices.rows
    {
      var d := devices.rows[k];
      DeviceDetail(k, d, TypeRef(d.typeId), BrandRef(d.brandId), InfoViews(InfoKeys(k)))
    }

    /** A detail is the device's own row, its type and brand when they exist,
        and exactly its info rows, each once, in key order. */
    lemma DetailIsTheDevice(k: int)
      requires Valid() && k in devices.rows
      ensures var r := Detail(k);
              && r.id == k && r.device == devices.rows[k]
              && (r.deviceType.Some? <==> devices.rows[k].typeId in types.rows)
              && (r.brand.Some? <==> devices.rows[k].brandId in brands.rows)
              && (forall i :: 0 <= i < |r.infos| ==> (r.infos[i].id in deviceInfos.rows
                         && deviceInfos.rows[r.infos[i].id].deviceId == k
                         && r.infos[i].title == deviceInfos.rows[r.infos[i].id].title
                         && r.infos[i].description == deviceInfos.rows[r.infos[i].id].description))
              && (forall j :: j in deviceInfos.rows && deviceInfos.rows[j].deviceId == k ==>
                         exists i :: 0 <= i < |r.infos| && r.infos[i].id == j)
              && (forall i, j :: 0 <= i < j < |r.infos| ==> r.infos[i].id < r.infos[j].id)
    {
      var ks := InfoKeys(k);
      var r := Detail(k);
      assert r.infos == InfoViews(ks);
      forall j | j in deviceInfos.rows && deviceInfos.rows[j].deviceId == k
        ensures exists i :: 0 <= i < |r.infos| && r.infos[i].id == j
      {
        assert j in ks;
        var i :| 0 <= i < |ks| && ks[i] == j;
        assert r.infos[i].id == j;
      }
    }

    function Details(ks: seq<int>): (r: seq<DeviceDetail>)
      reads this
      requires forall i :: 0 <= i < |ks| ==> ks[i] in devices.rows
      ensures |r| == |ks|
      ensures forall i :: 0 <= i < |ks| ==> r[i] == Detail(ks[i])
    {
      seq(|ks|, i reads this requires 0 <= i < |ks| && ks[i] in devices.rows => Detail(ks[i]))
    }

    /** The devices getAll's `where` selects, in key order. */
    function MatchingKeys(typeId: Option<int>, brandId: Option<int>): (ks: seq<int>)
      reads this`devices
      ensures forall k :: k in ks <==> 1 <= k < devices.next && k in devices.rows
                                       && MatchesFilters(devices.rows[k], typeId, brandId)
      ensures forall i :: 0 <= i < |ks| ==> ks[i] in devices.rows && MatchesFilters(devices.rows[ks[i]], typeId, brandId)
      ensures forall i, j :: 0 <= i < j < |ks| ==> ks[i] < ks[j]
    {
      KeysAsc(devices.rows, (d: Device) => MatchesFilters(d, typeId, brandId), 1, devices.next)
    }

    /** `DeviceInfo.create(...)` of a row of an existing device. */
    method InsertInfo(row: DeviceInfo)
      requires InfosValid() && row.deviceId in devices.rows
      modifies this`deviceInfos
      ensures InfosValid() && deviceInfos == old(deviceInfos).Insert(row)
    {
      InsertIsFresh(deviceInfos, row);
      deviceInfos := deviceInfos.Insert(row);
    }

    /** The info loop of create and update: one DeviceInfo per item, in
        order, until the first item without a title or a description. */
    method AddInfos(deviceId: int, items: seq<InfoItem>) returns (complete: bool)
      requires InfosValid() && deviceId in devices.rows
      modifies this`deviceInfos
      ensures InfosValid()
      ensures complete <==> CompletePrefix(items) == |items|
      ensures deviceInfos.next == old(deviceInfos.next) + CompletePrefix(items)
      ensures deviceInfos.rows == old(deviceInfos.rows) + InfoRows(deviceId, items[..CompletePrefix(items)], old(deviceInfos.next))
    {
      ghost var t0 := deviceInfos;
      var i := 0;
      while i < |items|
        invariant 0 <= i <= |items|
        invariant forall j :: 0 <= j < i ==> InfoItemComplete(items[j])
        invariant InfosValid()
        invariant deviceInfos == InsertInfos(t0, deviceId, items[..i])
      {
        if !InfoItemComplete(items[i]) {
          assert CompletePrefix(items) == i;
          InsertInfosRows(t0, deviceId, items[..i]);
          return false;
        }
        assert items[..i + 1][..i] == items[..i];
        InsertInfo(InfoRow(deviceId, items[i]));
        i := i + 1;
      }
      assert items[..i] == items && CompletePrefix(items) == |items|;
      InsertInfosRows(t0, deviceId, items);
      return true;
    }

    /** The guards of deviceController.create up to the insert, in order:
        the reply of the first that fails. A missing type or brand deletes the
        upload and then calls the missing `ApiError.notFound`; the catch block
        deletes the same file again, that second `fs.unlink` rejects, and the
        request is never answered. */
    function CreateRejection(name: TextArg, price: NumArg, typeId: NumArg, brandId: NumArg, file: Option<string>):
      (r: Option<Reply<DeviceRow>>)
      reads this`devices, this`types, this`brands
      ensures r.Some? && r.value.Answered? ==>
                r.value.result.Err? && (r.value.result.kind == BadRequest || r.value.result.kind == Internal)
      ensures r == Some(Unanswered) <==>
                CreateFieldProblem(name, price, typeId, brandId, file).None? && DeviceByName(name.s).None?
                && (typeId.n !in types.rows || brandId.n !in brands.rows)
    {
      if CreateFieldProblem(name, price, typeId, brandId, file).Some?
      then Some(Answered(Err(BadRequest, CreateFieldProblem(name, price, typeId, brandId, file).value)))
      else if DeviceByName(name.s).Some? then Some(Answered(Err(BadRequest, "Device with this name already exists")))
      else if typeId.n !in types.rows || brandId.n !in brands.rows then Some(Unanswered)
      else if DeviceByName(Trim(name.s)).Some? then Some(Answered(Err(Internal, "Error creating device")))
      else None
    }

    /** A create that passes its guards stores a device whose name no device
        has, neither as sent nor trimmed, of a type and a brand that exist. */
    lemma AcceptedCreateIsSound(name: TextArg, price: NumArg, typeId: NumArg, brandId: NumArg, file: Option<string>)
      requires Valid() && CreateRejection(name, price, typeId, brandId, file).None?
      ensures CreateFieldProblem(name, price, typeId, brandId, file).None?
      ensures var d := NewDevice(name, price, typeId, brandId, file);
              && d.typeId in types.rows && d.brandId in brands.rows
              && (forall k :: k in devices.rows ==> devices.rows[k].name != d.name && devices.rows[k].name != name.s)
    {
    }

    /** `Device.create` of a row whose name is free. */
    method InsertDevice(d: Device)
      requires Valid() && forall k :: k in devices.rows ==> devices.rows[k].name != d.name
      modifies this`devices
      ensures Valid() && devices == old(devices).Insert(d)
    {
      InsertIsFresh(devices, d);
      devices := devices.Insert(d);
    }

    /** `Device.update(updateData, { where: { id } })` of a row whose name no
        other device has. */
    method WriteDevice(n: int, d: Device)
      requires Valid() && n in devices.rows && !NameTakenByOther(d.name, n)
      modifies this`devices
      ensures Valid() && devices == old(devices).(rows := old(devices.rows)[n := d])
    {
      devices := devices.(rows := devices.rows[n := d]);
    }

    /** The `if (info)` step of create and update. */
    method ProcessInfo(deviceId: int, info: InfoArg, replace: bool) returns (problem: Option<string>)
      requires Valid() && deviceId in devices.rows
      modifies this`deviceInfos
      ensures Valid()
      ensures problem == InfoProblem(info) && deviceInfos == InfoAfter(old(deviceInfos), deviceId, info, replace)
    {
      match info {
        case NoInfo =>
          problem := None;
        case BadJson =>
          problem := Some("Invalid JSON format in info field");
        case NotArray =>
          problem := Some("Info must be an array");
        case Items(items) =>
          if replace {
            deviceInfos := deviceInfos.(rows := InfosWithout(deviceInfos.rows, deviceId));
          }
          var complete := AddInfos(deviceId, items);
          problem := if complete then None else Some("Device info must have title and description");
      }
    }

    /** deviceController.create. The device is stored before its info is
        read, so an info error leaves the device and the infos inserted so far. */
    method CreateDevice(name: TextArg, price: NumArg, typeId: NumArg, brandId: NumArg, file: Option<string>, info: InfoArg)
      returns (reply: Reply<DeviceRow>)
      requires Valid()
      modifies this`devices, this`deviceInfos
      ensures Valid()
      ensures old(CreateRejection(name, price, typeId, brandId, file)).Some? ==>
                reply == old(CreateRejection(name, price, typeId, brandId, file)).value
                && devices == old(devices) && deviceInfos == old(deviceInfos)
      ensures old(CreateRejection(name, price, typeId, brandId, file)).None? ==>
                var id, d := old(devices.next), NewDevice(name, price, typeId, brandId, file);
                && devices == old(devices).Insert(d)
                && deviceInfos == InfoAfter(old(deviceInfos), id, info, false)
                && reply == Answered(if InfoProblem(info).None? then Ok(200, DeviceRow(id, d))
                                     else Err(BadRequest, InfoProblem(info).value))
    {
      var rejection := CreateRejection(name, price, typeId, brandId, file);
      if rejection.Some? {
        return rejection.value;
      }
      var id, d := devices.next, NewDevice(name, price, typeId, brandId, file);
      InsertDevice(d);
      var problem := ProcessInfo(id, info, false);
      reply := Answered(if problem.None? then Ok(200, DeviceRow(id, d)) else Err(BadRequest, problem.value));
    }

    /** deviceController.getOne. */
    method GetDevice(id: NumArg) returns (r: Result<DeviceDetail>)
      requires Valid()
      ensures !IsPositiveInt(id) ==> r == Err(BadRequest, "Invalid device ID")
      ensures IsPositiveInt(id) && id.n !in devices.rows ==> r == Err(NotFound, "Device not found")
      ensures IsPositiveInt(id) && id.n in devices.rows ==> r == Ok(200, Detail(id.n))
    {
      if !IsPositiveInt(id) {
        return Err(BadRequest, "Invalid device ID");
      }
      if id.n !in devices.rows {
        return Err(NotFound, "Device not found");
      }
      return Ok(200, Detail(id.n));
    }

    /** deviceController.getAll: page `page` of `limit` devices among those
        of the requested type and brand, in key order, with their number. */
    method GetDevices(typeId: NumArg, brandId: NumArg, limit: NumArg, page: NumArg) returns (r: Result<DevicePage>)
      requires Valid()
      ensures QueryNumber(limit, 10).None? ==> r == Err(BadRequest, "Invalid limit value")
      ensures QueryNumber(limit, 10).Some? && QueryNumber(page, 1).None? ==> r == Err(BadRequest, "Invalid page value")
      ensures QueryNumber(limit, 10).Some? && QueryNumber(page, 1).Some? ==>
                var l, p := QueryNumber(limit, 10).value, QueryNumber(page, 1).value;
                var ks := MatchingKeys(QueryFilter(typeId), QueryFilter(brandId));
                l >= 1 && p >= 1 && r == Ok(200, DevicePage(|ks|, Details(Page(ks, PageOffset(p, l), l))))
    {
      var filterType, filterBrand := QueryFilter(typeId), QueryFilter(brandId);
      var l := QueryNumber(limit, 10);
      if l.None? {
        return Err(BadRequest, "Invalid limit value");
      }
      var p := QueryNumber(page, 1);
      if p.None? {
        return Err(BadRequest, "Invalid page value");
      }
      var ks := MatchingKeys(filterType, filterBrand);
      var offset := PageOffset(p.value, l.value);
      r := Ok(200, DevicePage(|ks|, Details(Page(ks, offset, l.value))));
    }

    /** Every device on a page matches the filters, and a page holds at most
        `limit` devices. */
    lemma PageRowsMatch(typeId: Option<int>, brandId: Option<int>, limit: nat, page: nat)
      requires Valid() && page >= 1
      ensures var rows := Details(Page(MatchingKeys(typeId, brandId), PageOffset(page, limit), limit));
              && |rows| <= limit
              && forall i :: 0 <= i < |rows| ==> rows[i].id in devices.rows
                                                  && MatchesFilters(rows[i].device, typeId, brandId)
    {
      var ks := MatchingKeys(typeId, brandId);
      var rows := Details(Page(ks, PageOffset(page, limit), limit));
      forall i | 0 <= i < |rows| ensures rows[i].id in devices.rows && MatchesFilters(rows[i].device, typeId, brandId) {
        assert rows[i] == Detail(ks[PageOffset(page, limit) + i]);
      }
    }

    /** Every matching device is on some page: the one at position j of the
        key-ordered list of matches is row j % limit of page j / limit + 1. */
    lemma MatchOnItsPage(typeId: Option<int>, brandId: Option<int>, limit: nat, j: nat)
      requires Valid() && limit >= 1 && j < |MatchingKeys(typeId, brandId)|
      ensures var ks := MatchingKeys(typeId, brandId);
              var rows := Details(Page(ks, PageOffset(j / limit + 1, limit), limit));
              j % limit < |rows| && rows[j % limit] == Detail(ks[j])
    {
      var ks := MatchingKeys(typeId, brandId);
      RowOnItsPage(ks, j, limit);
    }

    /** The guards of deviceController.update up to the write, in order:
        the error of the first that fails. */
    function UpdateRejection(id: NumArg, name: TextArg, price: NumArg, typeId: NumArg, brandId: NumArg,
                             file: Option<string>): Option<(ErrorKind, string)>
      reads this`devices, this`types, this`brands
    {
      if !IsPositiveInt(id) then Some((BadRequest, "Invalid device ID"))
      else if id.n !in devices.rows then Some((NotFound, "Device not found"))
      else if UpdateFieldProblem(name, price, typeId, brandId).Some?
      then Some((BadRequest, UpdateFieldProblem(name, price, typeId, brandId).value))
      else if TextTruthy(name) && name.s != devices.rows[id.n].name && DeviceByName(name.s).Some?
      then Some((BadRequest, "Device with this name already exists"))
      else if NumTruthy(typeId) && typeId.n !in types.rows then Some((NotFound, "Type not found"))
      else if NumTruthy(brandId) && brandId.n !in brands.rows then Some((NotFound, "Brand not found"))
      else if NameTakenByOther(Patched(devices.rows[id.n], name, price, typeId, brandId, file).name, id.n)
      then Some((Internal, "Error updating device"))
      else None
    }

    /** An update that passes its guards writes an existing device, with
        fields that pass their checks, to a type and a brand that exist and a
        name no other device has. */
    lemma AcceptedUpdateIsSound(id: NumArg, name: TextArg, price: NumArg, typeId: NumArg, brandId: NumArg, file: Option<string>)
      requires Valid() && UpdateRejection(id, name, price, typeId, brandId, file).None?
      ensures IsPositiveInt(id) && id.n in devices.rows
      ensures var d := Patched(devices.rows[id.n], name, price, typeId, brandId, file);
              && (forall k :: k in devices.rows && k != id.n ==> devices.rows[k].name != d.name)
              && (NumTruthy(typeId) ==> d.typeId in types.rows && d.typeId > 0)
              && (NumTruthy(brandId) ==> d.brandId in brands.rows && d.brandId > 0)
              && (NumTruthy(price) ==> d.price > 0)
              && (TextTruthy(name) ==> d.name == Trim(name.s) && d.name != [])
    {
      var d := Patched(devices.rows[id.n], name, price, typeId, brandId, file);
      assert !NameTakenByOther(d.name, id.n);
      assert UpdateFieldProblem(name, price, typeId, brandId).None?;
    }

    /** deviceController.update. The device row is written before the info is
        read; a new info array replaces all of the device's info rows. */
    method UpdateDevice(id: NumArg, name: TextArg, price: NumArg, typeId: NumArg, brandId: NumArg,
                        file: Option<string>, info: InfoArg) returns (r: Result<DeviceDetail>)
      requires Valid()
      modifies this`devices, this`deviceInfos
      ensures Valid()
      ensures old(UpdateRejection(id, name, price, typeId, brandId, file)).Some? ==>
                var (kind, message) := old(UpdateRejection(id, name, price, typeId, brandId, file)).value;
                r == Err(kind, message) && devices == old(devices) && deviceInfos == old(deviceInfos)
      ensures old(UpdateRejection(id, name, price, typeId, brandId, file)).None? ==>
                var n := id.n;
                && devices == old(devices).(rows := old(devices.rows)[n := Patched(old(devices.rows)[n], name, price, typeId, brandId, file)])
                && deviceInfos == InfoAfter(old(deviceInfos), n, info, true)
                && r == (if InfoProblem(info).None? then Ok(200, Detail(n)) else Err(BadRequest, InfoProblem(info).value))
    {
      var rejection := UpdateRejection(id, name, price, typeId, brandId, file);
      if rejection.Some? {
        return Err(rejection.value.0, rejection.value.1);
      }
      var n := id.n;
      var d := Patched(devices.rows[n], name, price, typeId, brandId, file);
      assert !NameTakenByOther(d.name, n);
      WriteDevice(n, d);
      var problem := ProcessInfo(n, info, true);
      r := if problem.None? then Ok(200, Detail(n)) else Err(BadRequest, problem.value);
    }
    /** `DeviceInfo.destroy({ where: { deviceId } })`. */
    method DropInfos(deviceId: int)
      requires InfosValid()
      modifies this`deviceInfos
      ensures InfosValid()
      ensures deviceInfos == old(deviceInfos).(rows := InfosWithout(old(deviceInfos.rows), deviceId))
      ensures forall k :: k in deviceInfos.rows ==> deviceInfos.rows[k].deviceId != deviceId
    {
      deviceInfos := deviceInfos.(rows := InfosWithout(deviceInfos.rows, deviceId));
    }

    /** `Rating.destroy({ where: { deviceId } })`. */
    method DropRatings(deviceId: int)
      requires RatingsValid()
      modifies this`ratings
      ensures RatingsValid()
      ensures ratings == old(ratings).(rows := RatingsWithout(old(ratings.rows), deviceId))
      ensures forall k :: k in ratings.rows ==> ratings.rows[k].deviceId != deviceId
    {
      ratings := ratings.(rows := RatingsWithout(ratings.rows, deviceId));
    }

    /** `BasketDevice.destroy({ where: { deviceId } })`. */
    method DropLines(deviceId: int)
      requires BasketLinesValid()
      modifies this`basketDevices
      ensures BasketLinesValid()
      ensures basketDevices == old(basketDevices).(rows := LinesWithout(old(basketDevices.rows), deviceId))
      ensures forall k :: k in basketDevices.rows ==> basketDevices.rows[k].deviceId != deviceId
    {
      basketDevices := basketDevices.(rows := LinesWithout(basketDevices.rows, deviceId));
    }

    /** `Device.destroy({ where: { id } })` once nothing but order lines
        refers to the device. */
    method DropDevice(n: int)
      requires CatalogValid() && InfosValid() && RatingsValid() && BasketLinesValid()
      requires forall k :: k in deviceInfos.rows ==> deviceInfos.rows[k].deviceId != n
      requires forall k :: k in ratings.rows ==> ratings.rows[k].deviceId != n
      requires forall k :: k in basketDevices.rows ==> basketDevices.rows[k].deviceId != n
      modifies this`devices
      ensures CatalogValid() && InfosValid() && RatingsValid() && BasketLinesValid()
      ensures devices == old(devices).(rows := old(devices.rows) - {n})
    {
      devices := devices.(rows := devices.rows - {n});
    }

    /** deviceController.delete: the device goes with its infos, its ratings
        and the basket lines holding it. Order lines keep the old device key
        (the database's ON DELETE SET NULL is not modelled); either way their
        device is missing. */
    method DeleteDevice(id: NumArg) returns (r: Result<string>)
      requires Valid()
      modifies this`devices, this`deviceInfos, this`ratings, this`basketDevices
      ensures Valid()
      ensures !IsPositiveInt(id) ==> r == Err(BadRequest, "Invalid device ID")
      ensures IsPositiveInt(id) && id.n !in old(devices.rows) ==> r == Err(NotFound, "Device not found")
      ensures r.Err? ==> devices == old(devices) && deviceInfos == old(deviceInfos) && ratings == old(ratings)
                         && basketDevices == old(basketDevices)
      ensures r.Ok? <==> IsPositiveInt(id) && id.n in old(devices.rows)
      ensures r.Ok? ==> r == Ok(200, "Device deleted successfully")
      ensures r.Ok? ==> var n := id.n;
                        && devices == old(devices).(rows := old(devices.rows) - {n})
                        && deviceInfos == old(deviceInfos).(rows := InfosWithout(old(deviceInfos.rows), n))
                        && ratings == old(ratings).(rows := RatingsWithout(old(ratings.rows), n))
                        && basketDevices == old(basketDevices).(rows := LinesWithout(old(basketDevices.rows), n))
    {
      if !IsPositiveInt(id) {
        return Err(BadRequest, "Invalid device ID");
      }
      var n := id.n;
      if n !in devices.rows {
        return Err(NotFound, "Device not found");
      }
      DropInfos(n);
      DropRatings(n);
      DropLines(n);
      assert AccountsValid() && OrdersValid();
      DropDevice(n);
      assert AccountsValid() && OrdersValid();
      r := Ok(200, "Device deleted successfully");
    }

    // ------------------------------------------------------------ types

    /** `Type.findOne({ where: { name } })`. */
    function TypeByName(name: string): (r: Option<int>)
      reads this`types
      ensures r.Some? ==> r.value in types.rows && types.rows[r.value].name == name
      ensures r.None? && types.WellKeyed() ==> forall k :: k in types.rows ==> types.rows[k].name != name
    {
      FirstKey(types.rows, (x: DeviceType) => x.name == name, 1, types.next)
    }

    /** A type other than `id` is called `name`. */
    predicate TypeNameTakenByOther(name: string, id: int)
      reads this`types
    {
      exists k :: k in types.rows && k != id && types.rows[k].name == name
    }

    /** `Type.findAll()`: every type, in key order. */
    function TypeRows(ks: seq<int>): (r: seq<NamedRow>)
      reads this
      requires forall i :: 0 <= i < |ks| ==> ks[i] in types.rows
      ensures |r| == |ks|
      ensures forall i :: 0 <= i < |ks| ==> r[i] == NamedRow(ks[i], types.rows[ks[i]].name)
    {
      seq(|ks|, i reads this requires 0 <= i < |ks| && ks[i] in types.rows => NamedRow(ks[i], types.rows[ks[i]].name))
    }

    function TypeList(): (r: seq<NamedRow>)
      reads this
      ensures forall i :: 0 <= i < |r| ==> r[i].id in types.rows && r[i].name == types.rows[r[i].id].name
      ensures forall i, j :: 0 <= i < j < |r| ==> r[i].id < r[j].id
      ensures types.WellKeyed() ==> forall k :: k in types.rows ==> exists i :: 0 <= i < |r| && r[i].id == k
    {
      var ks := KeysAsc(types.rows, (x: DeviceType) => true, 1, types.next);
      var r := TypeRows(ks);
      assert forall k :: k in types.rows && 1 <= k < types.next ==> k in ks && exists i :: 0 <= i < |ks| && ks[i] == k && r[i].id == k;
      r
    }

    /** `Type.create({ name })` of a name no type has. */
    method InsertType(stored: string)
      requires Valid() && TypeByName(stored).None?
      modifies this`types
      ensures Valid() && types == old(types).Insert(DeviceType(stored))
    {
      InsertIsFresh(types, DeviceType(stored));
      types := types.Insert(DeviceType(stored));
    }

    /** typeController.create. */
    method CreateType(name: TextArg) returns (r: Result<NamedRow>)
      requires Valid()
      modifies this`types
      ensures Valid()
      ensures NameProblem(name, "Type").Some? ==> r == Err(BadRequest, NameProblem(name, "Type").value)
      ensures NameProblem(name, "Type").None? && old(TypeByName(name.s)).Some?
              ==> r == Err(BadRequest, "Type with this name already exists")
      ensures NameProblem(name, "Type").None? && old(TypeByName(name.s)).None? && old(TypeByName(Trim(name.s))).Some?
              ==> r == Err(Internal, "Error creating type")
      ensures r.Err? ==> types == old(types)
      ensures r.Ok? <==> NameProblem(name, "Type").None? && old(TypeByName(name.s)).None? && old(TypeByName(Trim(name.s))).None?
      ensures r.Ok? ==> types == old(types).Insert(DeviceType(Trim(name.s)))
                        && r == Ok(201, NamedRow(old(types.next), Trim(name.s)))
    {
      var problem := NameProblem(name, "Type");
      if problem.Some? {
        return Err(BadRequest, problem.value);
      }
      if TypeByName(name.s).Some? {
        return Err(BadRequest, "Type with this name already exists");
      }
      var stored := Trim(name.s);
      if TypeByName(stored).Some? {
        return Err(Internal, "Error creating type");
      }
      var id := types.next;
      InsertType(stored);
      r := Ok(201, NamedRow(id, stored));
    }

    /** typeController.getOne. A missing type is a bad request here. */
    method GetType(id: NumArg) returns (r: Result<NamedRow>)
      requires Valid()
      ensures !IsPositiveInt(id) ==> r == Err(BadRequest, "Invalid type ID")
      ensures IsPositiveInt(id) && id.n !in types.rows ==> r == Err(BadRequest, "Type not found")
      ensures IsPositiveInt(id) && id.n in types.rows ==> r == Ok(200, NamedRow(id.n, types.rows[id.n].name))
    {
      if !IsPositiveInt(id) {
        return Err(BadRequest, "Invalid type ID");
      }
      if id.n !in types.rows {
        return Err(BadRequest, "Type not found");
      }
      return Ok(200, NamedRow(id.n, types.rows[id.n].name));
    }

    /** typeController.getAll. */
    method GetTypes() returns (r: Result<seq<NamedRow>>)
      requires Valid()
      ensures r == Ok(200, TypeList())
    {
      return Ok(200, TypeList());
    }

    /** `Type.update({ name }, { where: { id } })` to a name no other type has. */
    method RenameType(n: int, stored: string)
      requires Valid() && n in types.rows && !TypeNameTakenByOther(stored, n)
      modifies this`types
      ensures Valid() && types == old(types).(rows := old(types.rows)[n := DeviceType(stored)])
    {
      types := types.(rows := types.rows[n := DeviceType(stored)]);
    }

    /** typeController.update: renames an existing type. */
    method UpdateType(id: NumArg, name: TextArg) returns (r: Result<NamedRow>)
      requires Valid()
      modifies this`types
      ensures Valid()
      ensures !IsPositiveInt(id) ==> r == Err(BadRequest, "Invalid type ID")
      ensures IsPositiveInt(id) && NameProblem(name, "Type").Some? ==> r == Err(BadRequest, NameProblem(name, "Type").value)
      ensures IsPositiveInt(id) && NameProblem(name, "Type").None? && id.n !in old(types.rows)
              ==> r == Err(BadRequest, "Type not found")
      ensures IsPositiveInt(id) && NameProblem(name, "Type").None? && id.n in old(types.rows)
              && old(TypeByName(name.s)).Some? && old(TypeByName(name.s)).value != id.n
              ==> r == Err(BadRequest, "Type with this name already exists")
      ensures r.Err? ==> types == old(types)
      ensures r.Ok? ==> IsPositiveInt(id) && NameProblem(name, "Type").None? && id.n in old(types.rows)
                        && !(old(TypeByName(name.s)).Some? && old(TypeByName(name.s)).value != id.n)
                        && !old(TypeNameTakenByOther(Trim(name.s), id.n))
      ensures r.Ok? ==> types == old(types).(rows := old(types.rows)[id.n := DeviceType(Trim(name.s))])
                        && r == Ok(200, NamedRow(id.n, Trim(name.s)))
      ensures r.Err? && IsPositiveInt(id) && NameProblem(name, "Type").None? && id.n in old(types.rows)
              && !(old(TypeByName(name.s)).Some? && old(TypeByName(name.s)).value != id.n)
              ==> r == Err(Internal, "Error updating type") && old(TypeNameTakenByOther(Trim(name.s), id.n))
    {
      if !IsPositiveInt(id) {
        return Err(BadRequest, "Invalid type ID");
      }
      var problem := NameProblem(name, "Type");
      if problem.Some? {
        return Err(BadRequest, problem.value);
      }
      var n := id.n;
      if n !in types.rows {
        return Err(BadRequest, "Type not found");
      }
      var existing := TypeByName(name.s);
      if existing.Some? && existing.value != n {
        return Err(BadRequest, "Type with this name already exists");
      }
      var stored := Trim(name.s);
      if TypeNameTakenByOther(stored, n) {
        return Err(Internal, "Error updating type");
      }
      RenameType(n, stored);
      r := Ok(200, NamedRow(n, stored));
    }

    /** typeController.delete. */
    method DeleteType(id: NumArg) returns (r: Result<string>)
      requires Valid()
      modifies this`types
      ensures Valid()
      ensures !IsPositiveInt(id) ==> r == Err(BadRequest, "Invalid type ID")
      ensures IsPositiveInt(id) && id.n !in old(types.rows) ==> r == Err(BadRequest, "Type not found")
      ensures r.Err? ==> types == old(types)
      ensures r.Ok? <==> IsPositiveInt(id) && id.n in old(types.rows)
      ensures r.Ok? ==> r == Ok(200, "Type deleted successfully") && types == old(types).(rows := old(types.rows) - {id.n})
    {
      if !IsPositiveInt(id) {
        return Err(BadRequest, "Invalid type ID");
      }
      if id.n !in types.rows {
        return Err(BadRequest, "Type not found");
      }
      types := types.(rows := types.rows - {id.n});
      r := Ok(200, "Type deleted successfully");
    }

    // ------------------------------------------------------------ brands

    /** `Brand.findOne({ where: { name } })`. */
    function BrandByName(name: string): (r: Option<int>)
      reads this`brands
      ensures r.Some? ==> r.value in brands.rows && brands.rows[r.value].name == name
      ensures r.None? && brands.WellKeyed() ==> forall k :: k in brands.rows ==> brands.rows[k].name != name
    {
      FirstKey(brands.rows, (x: Brand) => x.name == name, 1, brands.next)
    }

    /** A brand other than `id` is called `name`. */
    predicate BrandNameTakenByOther(name: string, id: int)
      reads this`brands
    {
      exists k :: k in brands.rows && k != id && brands.rows[k].name == name
    }

    /** `Brand.findAll()`: every brand, in key order. */
    function BrandRows(ks: seq<int>): (r: seq<NamedRow>)
      reads this
      requires forall i :: 0 <= i < |ks| ==> ks[i] in brands.rows
      ensures |r| == |ks|
      ensures forall i :: 0 <= i < |ks| ==> r[i] == NamedRow(ks[i], brands.rows[ks[i]].name)
    {
      seq(|ks|, i reads this requires 0 <= i < |ks| && ks[i] in brands.rows => NamedRow(ks[i], brands.rows[ks[i]].name))
    }

    function BrandList(): (r: seq<NamedRow>)
      reads this
      ensures forall i :: 0 <= i < |r| ==> r[i].id in brands.rows && r[i].name == brands.rows[r[i].id].name
      ensures forall i, j :: 0 <= i < j < |r| ==> r[i].id < r[j].id
      ensures brands.WellKeyed() ==> forall k :: k in brands.rows ==> exists i :: 0 <= i < |r| && r[i].id == k
    {
      var ks := KeysAsc(brands.rows, (x: Brand) => true, 1, brands.next);
      var r := BrandRows(ks);
      assert forall k :: k in brands.rows && 1 <= k < brands.next ==> k in ks && exists i :: 0 <= i < |ks| && ks[i] == k && r[i].id == k;
      r
    }

    /** `Brand.create({ name })` of a name no brand has. */
    method InsertBrand(stored: string)
      requires Valid() && BrandByName(stored).None?
      modifies this`brands
      ensures Valid() && brands == old(brands).Insert(Brand(stored))
    {
      InsertIsFresh(brands, Brand(stored));
      brands := brands.Insert(Brand(stored));
    }

    /** brandController.create. */
    method CreateBrand(name: TextArg) returns (r: Result<NamedRow>)
      requires Valid()
      modifies this`brands
      ensures Valid()
      ensures NameProblem(name, "Brand").Some? ==> r == Err(BadRequest, NameProblem(name, "Brand").value)
      ensures NameProblem(name, "Brand").None? && old(BrandByName(name.s)).Some?
              ==> r == Err(BadRequest, "Brand with this name already exists")
      ensures NameProblem(name, "Brand").None? && old(BrandByName(name.s)).None? && old(BrandByName(Trim(name.s))).Some?
              ==> r == Err(Internal, "Error creating brand")
      ensures r.Err? ==> brands == old(brands)
      ensures r.Ok? <==> NameProblem(name, "Brand").None? && old(BrandByName(name.s)).None? && old(BrandByName(Trim(name.s))).None?
      ensures r.Ok? ==> brands == old(brands).Insert(Brand(Trim(name.s)))
                        && r == Ok(200, NamedRow(old(brands.next), Trim(name.s)))
    {
      var problem := NameProblem(name, "Brand");
      if problem.Some? {
        return Err(BadRequest, problem.value);
      }
      if BrandByName(name.s).Some? {
        return Err(BadRequest, "Brand with this name already exists");
      }
      var stored := Trim(name.s);
      if BrandByName(stored).Some? {
        return Err(Internal, "Error creating brand");
      }
      var id := brands.next;
      InsertBrand(stored);
      r := Ok(200, NamedRow(id, stored));
    }

    /** brandController.getOne. A missing brand is a bad request here. */
    method GetBrand(id: NumArg) returns (r: Result<NamedRow>)
      requires Valid()
      ensures !IsPositiveInt(id) ==> r == Err(BadRequest, "Invalid brand ID")
      ensures IsPositiveInt(id) && id.n !in brands.rows ==> r == Err(BadRequest, "Brand not found")
      ensures IsPositiveInt(id) && id.n in brands.rows ==> r == Ok(200, NamedRow(id.n, brands.rows[id.n].name))
    {
      if !IsPositiveInt(id) {
        return Err(BadRequest, "Invalid brand ID");
      }
      if id.n !in brands.rows {
        return Err(BadRequest, "Brand not found");
      }
      return Ok(200, NamedRow(id.n, brands.rows[id.n].name));
    }

    /** brandController.getAll. */
    method GetBrands() returns (r: Result<seq<NamedRow>>)
      requires Valid()
      ensures r == Ok(200, BrandList())
    {
      return Ok(200, BrandList());
    }

    /** `Brand.update({ name }, { where: { id } })` to a name no other brand has. */
    method RenameBrand(n: int, stored: string)
      requires Valid() && n in brands.rows && !BrandNameTakenByOther(stored, n)
      modifies this`brands
      ensures Valid() && brands == old(brands).(rows := old(brands.rows)[n := Brand(stored)])
    {
      brands := brands.(rows := brands.rows[n := Brand(stored)]);
    }

    /** brandController.update: renames an existing brand. */
    method UpdateBrand(id: NumArg, name: TextArg) returns (r: Result<NamedRow>)
      requires Valid()
      modifies this`brands
      ensures Valid()
      ensures !IsPositiveInt(id) ==> r == Err(BadRequest, "Invalid brand ID")
      ensures IsPositiveInt(id) && NameProblem(name, "Brand").Some? ==> r == Err(BadRequest, NameProblem(name, "Brand").value)
      ensures IsPositiveInt(id) && NameProblem(name, "Brand").None? && id.n !in old(brands.rows)
              ==> r == Err(BadRequest, "Brand not found")
      ensures IsPositiveInt(id) && NameProblem(name, "Brand").None? && id.n in old(brands.rows)
              && old(BrandByName(name.s)).Some? && old(BrandByName(name.s)).value != id.n
              ==> r == Err(BadRequest, "Brand with this name already exists")
      ensures r.Err? ==> brands == old(brands)
      ensures r.Ok? ==> IsPositiveInt(id) && NameProblem(name, "Brand").None? && id.n in old(brands.rows)
                        && !(old(BrandByName(name.s)).Some? && old(BrandByName(name.s)).value != id.n)
                        && !old(BrandNameTakenByOther(Trim(name.s), id.n))
      ensures r.Ok? ==> brands == old(brands).(rows := old(brands.rows)[id.n := Brand(Trim(name.s))])
                        && r == Ok(200, NamedRow(id.n, Trim(name.s)))
      ensures r.Err? && IsPositiveInt(id) && NameProblem(name, "Brand").None? && id.n in old(brands.rows)
              && !(old(BrandByName(name.s)).Some? && old(BrandByName(name.s)).value != id.n)
              ==> r == Err(Internal, "Error updating brand") && old(BrandNameTakenByOther(Trim(name.s), id.n))
    {
      if !IsPositiveInt(id) {
        return Err(BadRequest, "Invalid brand ID");
      }
      var problem := NameProblem(name, "Brand");
      if problem.Some? {
        return Err(BadRequest, problem.value);
      }
      var n := id.n;
      if n !in brands.rows {
        return Err(BadRequest, "Brand not found");
      }
      var existing := BrandByName(name.s);
      if existing.Some? && existing.value != n {
        return Err(BadRequest, "Brand with this name already exists");
      }
      var stored := Trim(name.s);
      if BrandNameTakenByOther(stored, n) {
        return Err(Internal, "Error updating brand");
      }
      RenameBrand(n, stored);
      r := Ok(200, NamedRow(n, stored));
    }

    /** brandController.delete. */
    method DeleteBrand(id: NumArg) returns (r: Result<string>)
      requires Valid()
      modifies this`brands
      ensures Valid()
      ensures !IsPositiveInt(id) ==> r == Err(BadRequest, "Invalid brand ID")
      ensures IsPositiveInt(id) && id.n !in old(brands.rows) ==> r == Err(BadRequest, "Brand not found")
      ensures r.Err? ==> brands == old(brands)
      ensures r.Ok? <==> IsPositiveInt(id) && id.n in old(brands.rows)
      ensures r.Ok? ==> r == Ok(200, "Brand deleted successfully") && brands == old(brands).(rows := old(brands.rows) - {id.n})
    {
      if !IsPositiveInt(id) {
        return Err(BadRequest, "Invalid brand ID");
      }
      if id.n !in brands.rows {
        return Err(BadRequest, "Brand not found");
      }
      brands := brands.(rows := brands.rows - {id.n});
      r := Ok(200, "Brand deleted successfully");
    }
  }
}
