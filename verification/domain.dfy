/** The values that pass between the components: internal/domain/domain.go. */
module Domain {
  datatype Option<+T> = None | Some(value: T)

  datatype Order = Order(
    orderUID: string,
    trackNumber: string,
    entry: string,
    delivery: Delivery,
    payment: Payment,
    items: seq<Item>,
    locale: string,
    internalSignature: string,
    customerID: string,
    deliveryService: string,
    shardKey: string,
    smID: int,
    dateCreated: int,
    oofShard: string)

  datatype Delivery = Delivery(
    name: string,
    phone: string,
    zip: string,
    city: string,
    address: string,
    region: string,
    email: string)

  datatype Payment = Payment(
    transaction: string,
    requestID: string,
    currency: string,
    provider: string,
    amount: int,
    paymentDt: int,
    bank: string,
    deliveryCost: int,
    goodsTotal: int,
    customFee: int)

  datatype Item = Item(
    chrtID: int,
    trackNumber: string,
    price: int,
    rid: string,
    name: string,
    sale: int,
    size: string,
    totalPrice: int,
    nmID: int,
    brand: string,
    status: int)
}
