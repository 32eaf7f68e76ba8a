/** The global store of the application (`DataProvider`): the product
    catalogue, customers, sales, credit payments and the status of the cash
    register, with the operations the pages call to change them. The
    generated identifiers and dates are parameters of the operations. */
module DataContext {
  import opened Seqs

  datatype Product = Product(id: string, name: string, price: real, image: string, category: string, stock: int)

  datatype Customer = Customer(id: string, name: string, phone: string, email: string, creditLimit: real, currentDebt: real)

  datatype PaymentMethod = Pix | Dinheiro | Cartao | Crediario

  datatype SaleLine = SaleLine(productId: string, quantity: int, price: real)

  /** A sale; `date` is the moment it was recorded, as a timestamp. */
  datatype Sale = Sale(id: string, customerId: Option<string>, products: seq<SaleLine>, total: real,
                       paymentMethod: PaymentMethod, date: int, cashierId: string)

  datatype PaymentStatus = Pendente | Vencido | Pago

  datatype CreditPayment = CreditPayment(id: string, customerId: string, totalAmount: real, paidAmount: real,
                                         dueDate: int, status: PaymentStatus, installments: int,
                                         currentInstallment: int)

  datatype CashStatus = CashStatus(isOpen: bool, openingAmount: real, currentAmount: real)

  /** The sum of the sale totals: the revenue both dashboards display. */
  function Revenue(sales: seq<Sale>): real
    decreases |sales|
  {
    if sales == [] then 0.0 else Revenue(sales[..|sales| - 1]) + sales[|sales| - 1].total
  }

  lemma {:induction false} RevenueAppend(a: seq<Sale>, b: seq<Sale>)
    ensures Revenue(a + b) == Revenue(a) + Revenue(b)
    decreases |b|
  {
    if b == [] {
      assert a + b == a;
    } else {
      assert (a + b)[..|a + b| - 1] == a + b[..|b| - 1];
      RevenueAppend(a, b[..|b| - 1]);
    }
  }

  lemma {:induction false} RevenueNonNegative(sales: seq<Sale>)
    requires forall i :: 0 <= i < |sales| ==> sales[i].total >= 0.0
    ensures Revenue(sales) >= 0.0
    decreases |sales|
  {
    if sales != [] {
      RevenueNonNegative(sales[..|sales| - 1]);
    }
  }

  class DataStore {
    const products: seq<Product>
    var customers: seq<Customer>
    var sales: seq<Sale>
    var creditPayments: seq<CreditPayment>
    var cashStatus: CashStatus

    /** The provider starts with the generated catalogue, customers and credit
        payments, no sales, and a closed register holding nothing. */
    constructor (products: seq<Product>, customers: seq<Customer>, creditPayments: seq<CreditPayment>)
      ensures this.products == products && this.customers == customers
      ensures this.creditPayments == creditPayments && sales == []
      ensures !cashStatus.isOpen && cashStatus.openingAmount == 0.0 && cashStatus.currentAmount == 0.0
    {
      this.products := products;
      this.customers := customers;
      this.creditPayments := creditPayments;
      sales := [];
      cashStatus := CashStatus(false, 0.0, 0.0);
    }

    /** Records `sale` under a fresh id and date, and adds its total to the
        cash amount whatever the payment method and whether or not the
        register is open. */
    method AddSale(sale: Sale, id: string, date: int)
      modifies this
      ensures sales == old(sales) + [sale.(id := id, date := date)]
      ensures cashStatus.currentAmount == old(cashStatus.currentAmount) + sale.total
      ensures cashStatus.isOpen == old(cashStatus.isOpen)
      ensures cashStatus.openingAmount == old(cashStatus.openingAmount)
      ensures customers == old(customers) && creditPayments == old(creditPayments)
      ensures Revenue(sales) - cashStatus.currentAmount == old(Revenue(sales) - cashStatus.currentAmount)
    {
      sales := sales + [sale.(id := id, date := date)];
      cashStatus := cashStatus.(currentAmount := cashStatus.currentAmount + sale.total);
    }

    method AddCustomer(customer: Customer, id: string)
      modifies this
      ensures customers == old(customers) + [customer.(id := id)]
      ensures sales == old(sales) && creditPayments == old(creditPayments) && cashStatus == old(cashStatus)
    {
      customers := customers + [customer.(id := id)];
    }

    method AddCreditPayment(payment: CreditPayment, id: string)
      modifies this
      ensures creditPayments == old(creditPayments) + [payment.(id := id)]
      ensures sales == old(sales) && customers == old(customers) && cashStatus == old(cashStatus)
    {
      creditPayments := creditPayments + [payment.(id := id)];
    }

    method OpenCash(amount: real)
      modifies this
      ensures cashStatus.isOpen && cashStatus.openingAmount == amount && cashStatus.currentAmount == amount
      ensures sales == old(sales) && customers == old(customers) && creditPayments == old(creditPayments)
    {
      cashStatus := CashStatus(true, amount, amount);
    }

    /** Closing forgets both amounts, whatever the register held. */
    method CloseCash()
      modifies this
      ensures !cashStatus.isOpen && cashStatus.openingAmount == 0.0 && cashStatus.currentAmount == 0.0
      ensures sales == old(sales) && customers == old(customers) && creditPayments == old(creditPayments)
    {
      cashStatus := CashStatus(false, 0.0, 0.0);
    }

    /** Takes `amount` out of the register without any check of its own. */
    method MakeCashWithdrawal(amount: real)
      modifies this
      ensures cashStatus.currentAmount == old(cashStatus.currentAmount) - amount
      ensures cashStatus.isOpen == old(cashStatus.isOpen)
      ensures cashStatus.openingAmount == old(cashStatus.openingAmount)
      ensures sales == old(sales) && customers == old(customers) && creditPayments == old(creditPayments)
    {
      cashStatus := cashStatus.(currentAmount := cashStatus.currentAmount - amount);
    }
  }
}
