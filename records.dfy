/** The sales transaction as the collection stores it (one document per row
    of the imported dataset). Dates are instants, counted in milliseconds;
    currency amounts are decimals the core never computes with. */
module Records {
  import opened Wrappers

  datatype Transaction = Transaction(
    transactionId: string,
    date: int,
    customerId: string,
    customerName: string,
    phoneNumber: string,
    gender: string,
    age: int,
    customerRegion: string,
    customerType: string,
    productId: string,
    productName: string,
    brand: string,
    productCategory: string,
    tags: seq<string>,
    quantity: int,
    pricePerUnit: real,
    discountPercentage: real,
    totalAmount: real,
    finalAmount: real,
    paymentMethod: string,
    orderStatus: string,
    deliveryType: string,
    storeId: string,
    storeLocation: string,
    salespersonId: string,
    employeeName: string)

  /** The string-valued field with the given name, as a query names it. */
  function TextField(t: Transaction, name: string): Option<string> {
    if name == "transactionId" then Some(t.transactionId)
    else if name == "customerId" then Some(t.customerId)
    else if name == "customerName" then Some(t.customerName)
    else if name == "phoneNumber" then Some(t.phoneNumber)
    else if name == "gender" then Some(t.gender)
    else if name == "customerRegion" then Some(t.customerRegion)
    else if name == "customerType" then Some(t.customerType)
    else if name == "productId" then Some(t.productId)
    else if name == "productName" then Some(t.productName)
    else if name == "brand" then Some(t.brand)
    else if name == "productCategory" then Some(t.productCategory)
    else if name == "paymentMethod" then Some(t.paymentMethod)
    else if name == "orderStatus" then Some(t.orderStatus)
    else if name == "deliveryType" then Some(t.deliveryType)
    else if name == "storeId" then Some(t.storeId)
    else if name == "storeLocation" then Some(t.storeLocation)
    else if name == "salespersonId" then Some(t.salespersonId)
    else if name == "employeeName" then Some(t.employeeName)
    else None
  }
}
