/** The point-of-sale page (`PDVPage`): a cart over the shared catalogue, the
    sale handler with its guards and credit check, and the register
    buttons, all working on the global store. */
module PdvPage {
  import opened Seqs
  import opened Text
  import Cart
  import opened DataContext
  import opened AuthContext

  datatype CustomerData = CustomerData(name: string, phone: string, email: string)

  const NoCustomerData := CustomerData("", "", "")

  /** The credit limit a customer first met at a crediário sale receives. */
  const NewCustomerCreditLimit: real := 1000.0

  /** How a successful sale relates to the customer list. */
  datatype CustomerLink = NoCustomer | Existing(index: nat) | NewCustomer

  datatype SaleVerdict = CashClosed | EmptyCart | MissingCustomerName | CreditLimitExceeded | Sold(link: CustomerLink)

  function SamePhone(phone: string): Customer -> bool {
    (c: Customer) => c.phone == phone
  }

  /** The first customer with that phone would exceed the limit with `total` more debt. */
  predicate OverLimit(customers: seq<Customer>, phone: string, total: real) {
    match FindIndex(customers, SamePhone(phone))
    case Some(k) => customers[k].currentDebt + total > customers[k].creditLimit
    case None => false
  }

  /** The outcome of `handleSale`: the guards in their order (register open,
      cart not empty, a name for crediário), then for crediário the credit
      check on the first customer with the given phone, or a new customer. */
  function Verdict(isOpen: bool, cart: seq<Cart.CartItem>, pm: PaymentMethod, data: CustomerData,
                   customers: seq<Customer>): (v: SaleVerdict)
    ensures v == CashClosed <==> !isOpen
    ensures v == EmptyCart <==> isOpen && cart == []
    ensures v == MissingCustomerName <==> isOpen && cart != [] && pm == Crediario && data.name == ""
    ensures v == CreditLimitExceeded <==>
      isOpen && cart != [] && pm == Crediario && data.name != "" &&
      OverLimit(customers, data.phone, Cart.Total(cart))
    ensures v == Sold(NoCustomer) <==> isOpen && cart != [] && pm != Crediario
    ensures v.Sold? && v.link.Existing? ==>
      pm == Crediario &&
      FindIndex(customers, SamePhone(data.phone)) == Some(v.link.index) &&
      customers[v.link.index].currentDebt + Cart.Total(cart) <= customers[v.link.index].creditLimit
    ensures v == Sold(NewCustomer) <==>
      isOpen && cart != [] && pm == Crediario && data.name != "" &&
      FindIndex(customers, SamePhone(data.phone)).None?
  {
    if !isOpen then CashClosed
    else if cart == [] then EmptyCart
    else if pm == Crediario && data.name == "" then MissingCustomerName
    else if pm != Crediario then Sold(NoCustomer)
    else match FindIndex(customers, SamePhone(data.phone))
      case Some(k) =>
        if customers[k].currentDebt + Cart.Total(cart) > customers[k].creditLimit then CreditLimitExceeded
        else Sold(Existing(k))
      case None => Sold(NewCustomer)
  }

  /** `user?.id || '1'`: the logged-in user's id, or "1" without a user or id. */
  function CashierId(user: Option<User>): (id: string)
    ensures id != ""
    ensures user.Some? && user.value.id != "" ==> id == user.value.id
  {
    if user.Some? && user.value.id != "" then user.value.id else "1"
  }

  function SaleLines(cart: seq<Cart.CartItem>): seq<SaleLine> {
    seq(|cart|, i requires 0 <= i < |cart| => SaleLine(cart[i].productId, cart[i].quantity, cart[i].price))
  }

  class Page {
    const data: DataStore
    var cart: seq<Cart.CartItem>
    var paymentMethod: PaymentMethod
    var customerData: CustomerData

    ghost predicate Valid()
      reads this
    {
      Cart.Valid(cart)
    }

    constructor (data: DataStore)
      ensures this.data == data && Valid()
      ensures cart == [] && paymentMethod == Dinheiro && customerData == NoCustomerData
    {
      this.data := data;
      cart := [];
      paymentMethod := Dinheiro;
      customerData := NoCustomerData;
    }

    method AddToCart(product: Product)
      requires Valid()
      modifies this
      ensures Valid()
      ensures cart == Cart.AddToCart(old(cart), product.id, product.name, product.price)
      ensures Cart.Total(cart) == Cart.Total(old(cart)) +
        (if Cart.InCart(old(cart), product.id)
         then old(cart)[FindIndex(old(cart), Cart.Matches(product.id)).value].price
         else product.price)
      ensures paymentMethod == old(paymentMethod) && customerData == old(customerData)
    {
      Cart.AddToCartValid(cart, product.id, product.name, product.price);
      Cart.TotalAddToCart(cart, product.id, product.name, product.price);
      cart := Cart.AddToCart(cart, product.id, product.name, product.price);
    }

    method UpdateQuantity(productId: string, quantity: int)
      requires Valid()
      modifies this
      ensures Valid()
      ensures cart == Cart.UpdateQuantity(old(cart), productId, quantity)
      ensures paymentMethod == old(paymentMethod) && customerData == old(customerData)
    {
      Cart.UpdateQuantityValid(cart, productId, quantity);
      cart := Cart.UpdateQuantity(cart, productId, quantity);
    }

    method SetPaymentMethod(pm: PaymentMethod)
      modifies this
      ensures paymentMethod == pm && cart == old(cart) && customerData == old(customerData)
    {
      paymentMethod := pm;
    }

    method SetCustomerData(d: CustomerData)
      modifies this
      ensures customerData == d && cart == old(cart) && paymentMethod == old(paymentMethod)
    {
      customerData := d;
    }

    /** `handleSale`. A rejected sale changes nothing. A sale records the cart
        total in the store, empties the cart and the customer form; an
        existing customer's debt is left as it was, and a new crediário
        customer is added with limit 1000 and the total as debt, while the
        sale names that customer by `CustomerRef`. */
    method HandleSale(user: Option<User>, saleId: string, newCustomerId: string, date: int)
      returns (v: SaleVerdict)
      requires Valid()
      modifies this, data
      ensures Valid()
      ensures v == Verdict(old(data.cashStatus.isOpen), old(cart), old(paymentMethod), old(customerData),
                           old(data.customers))
      ensures paymentMethod == old(paymentMethod) && data.creditPayments == old(data.creditPayments)
      ensures !v.Sold? ==>
        cart == old(cart) && customerData == old(customerData) && data.sales == old(data.sales) &&
        data.customers == old(data.customers) && data.cashStatus == old(data.cashStatus)
      ensures v.Sold? ==>
        cart == [] && customerData == NoCustomerData &&
        data.cashStatus == old(data.cashStatus).(currentAmount := old(data.cashStatus.currentAmount) + Cart.Total(old(cart))) &&
        data.sales == old(data.sales) + [Sale(saleId, CustomerRef(v.link, old(data.customers)), SaleLines(old(cart)),
                                              Cart.Total(old(cart)), old(paymentMethod), date, CashierId(user))]
      ensures v == Sold(NewCustomer) ==>
        data.customers == old(data.customers) +
          [Customer(newCustomerId, old(customerData).name, old(customerData).phone, old(customerData).email,
                    NewCustomerCreditLimit, Cart.Total(old(cart)))]
      ensures v.Sold? && !v.link.NewCustomer? ==> data.customers == old(data.customers)
    {
      ghost var expected := Verdict(data.cashStatus.isOpen, cart, paymentMethod, customerData, data.customers);
      if !data.cashStatus.isOpen {
        return CashClosed;
      }
      if |cart| == 0 {
        return EmptyCart;
      }
      if paymentMethod == Crediario && customerData.name == "" {
        return MissingCustomerName;
      }
      var total := Cart.Total(cart);
      var customers := data.customers;
      var link := NoCustomer;
      if paymentMethod == Crediario {
        var existing := FindIndex(customers, SamePhone(customerData.phone));
        if existing.Some? {
          var c := customers[existing.value];
          if c.currentDebt + total > c.creditLimit {
            return CreditLimitExceeded;
          }
          link := Existing(existing.value);
          assert expected == Sold(link);
        } else {
          data.AddCustomer(Customer("", customerData.name, customerData.phone, customerData.email,
                                    NewCustomerCreditLimit, total), newCustomerId);
          link := NewCustomer;
          assert expected == Sold(link);
        }
      }
      var sale := Sale("", CustomerRef(link, customers), SaleLines(cart), total, paymentMethod, 0, CashierId(user));
      data.AddSale(sale, saleId, date);
      cart := [];
      customerData := NoCustomerData;
      v := Sold(link);
    }

    /** `handleOpenCash`: `amount` is `parseFloat` of the typed text, `None`
        for NaN; negative amounts are refused. */
    method HandleOpenCash(amount: Option<real>) returns (ok: bool)
      modifies data
      ensures ok <==> amount.Some? && amount.value >= 0.0
      ensures ok ==> data.cashStatus == CashStatus(true, amount.value, amount.value)
      ensures !ok ==> data.cashStatus == old(data.cashStatus)
      ensures data.sales == old(data.sales) && data.customers == old(data.customers)
      ensures data.creditPayments == old(data.creditPayments)
    {
      if amount.None? || amount.value < 0.0 {
        return false;
      }
      data.OpenCash(amount.value);
      ok := true;
    }

    method HandleCloseCash()
      modifies data
      ensures data.cashStatus == CashStatus(false, 0.0, 0.0)
      ensures data.sales == old(data.sales) && data.customers == old(data.customers)
      ensures data.creditPayments == old(data.creditPayments)
    {
      data.CloseCash();
    }

    /** `handleWithdrawal`: only a positive amount no larger than the cash in
        the register is taken out, so the register never goes negative. */
    method HandleWithdrawal(amount: Option<real>) returns (ok: bool)
      modifies data
      ensures ok <==> amount.Some? && 0.0 < amount.value <= old(data.cashStatus.currentAmount)
      ensures ok ==> data.cashStatus == old(data.cashStatus).(currentAmount := old(data.cashStatus.currentAmount) - amount.value)
      ensures !ok ==> data.cashStatus == old(data.cashStatus)
      ensures old(data.cashStatus.currentAmount) >= 0.0 ==> data.cashStatus.currentAmount >= 0.0
      ensures data.sales == old(data.sales) && data.customers == old(data.customers)
      ensures data.creditPayments == old(data.creditPayments)
    {
      if amount.None? || amount.value <= 0.0 {
        return false;
      }
      if amount.value > data.cashStatus.currentAmount {
        return false;
      }
      data.MakeCashWithdrawal(amount.value);
      ok := true;
    }
  }

  /** The `customerId` a sale carries: none outside crediário, the matched
      customer's id, and for a new customer the length of the customer list
      read before the addition, as text. */
  function CustomerRef(link: CustomerLink, customers: seq<Customer>): (r: Option<string>)
    ensures link.NoCustomer? <==> r.None?
    ensures link.Existing? && link.index < |customers| ==> r == Some(customers[link.index].id)
    ensures link.NewCustomer? ==> r == Some(NatToString(|customers|))
  {
    match link
    case NoCustomer => None
    case Existing(k) => if k < |customers| then Some(customers[k].id) else Some("")
    case NewCustomer => Some(NatToString(|customers|))
  }

  /** Customer ids are UUIDs, which contain hyphens; the id written for a new
      crediário customer is a decimal number, so the sale is charged to no
      customer at all, neither the new one nor any earlier one. */
  lemma NewCustomerRefNamesNoCustomer(customers: seq<Customer>, added: Customer)
    requires forall j :: 0 <= j < |customers| ==> '-' in customers[j].id
    requires '-' in added.id
    ensures forall j :: 0 <= j < |customers + [added]| ==>
      CustomerRef(NewCustomer, customers) != Some((customers + [added])[j].id)
  {
    var written := NatToString(|customers|);
    forall j | 0 <= j < |customers + [added]|
      ensures Some((customers + [added])[j].id) != Some(written)
    {
      assert '-' in (customers + [added])[j].id;
      assert '-' !in written;
    }
  }
}
