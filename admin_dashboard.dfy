/** The administrator's dashboard (`pages/AdminDashboard`): revenue, the
    number of overdue credit payments, and the first rows of the credit table. */
module AdminDashboard {
  import opened Seqs
  import opened DataContext

  function IsOverdue(): CreditPayment -> bool {
    (p: CreditPayment) => p.status == Vencido
  }

  function IsNotOverdue(): CreditPayment -> bool {
    (p: CreditPayment) => p.status != Vencido
  }

  /** The number of overdue payments, counted one record at a time. */
  function CountVencido(payments: seq<CreditPayment>): (n: nat)
    ensures n <= |payments|
    ensures n == 0 <==> forall i :: 0 <= i < |payments| ==> payments[i].status != Vencido
    decreases |payments|
  {
    if payments == [] then 0
    else (if payments[0].status == Vencido then 1 else 0) + CountVencido(payments[1..])
  }

  /** Filtering the overdue payments keeps exactly as many as the count. */
  lemma {:induction false} FilterCountsVencido(payments: seq<CreditPayment>)
    ensures |Filter(payments, IsOverdue())| == CountVencido(payments)
    decreases |payments|
  {
    if payments != [] {
      FilterCountsVencido(payments[1..]);
    }
  }

  /** `overduePayments`: the length of the list of payments whose status is
      overdue, which is the number of overdue records. */
  function OverduePayments(payments: seq<CreditPayment>): (n: nat)
    ensures n == CountVencido(payments)
    ensures n <= |payments|
    ensures n == 0 <==> forall i :: 0 <= i < |payments| ==> payments[i].status != Vencido
  {
    FilterCountsVencido(payments);
    |Filter(payments, IsOverdue())|
  }

  /** The overdue payments and the others together are all of them. */
  lemma OverduePartition(payments: seq<CreditPayment>)
    ensures OverduePayments(payments) + |Filter(payments, IsNotOverdue())| == |payments|
  {
    FilterComplement(payments, IsOverdue(), IsNotOverdue());
  }

  const UnknownCustomer := "Cliente não encontrado"

  datatype PaymentRow = PaymentRow(customerName: string, valorVencido: real, valorFuturo: real, status: PaymentStatus)

  function HasId(id: string): Customer -> bool {
    (c: Customer) => c.id == id
  }

  /** One row of the credit table: the customer's name (or a placeholder when
      no customer has the id or the name is empty), the outstanding amount,
      and that same amount again as overdue when the payment is overdue. */
  function Row(p: CreditPayment, customers: seq<Customer>): (r: PaymentRow)
    ensures r.valorFuturo == p.totalAmount - p.paidAmount
    ensures r.valorVencido == (if p.status == Vencido then r.valorFuturo else 0.0)
    ensures r.status == p.status
    ensures r.customerName != ""
    ensures r.customerName != UnknownCustomer ==>
      exists i :: 0 <= i < |customers| && customers[i].id == p.customerId && customers[i].name == r.customerName
    ensures (FindIndex(customers, HasId(p.customerId)).Some? &&
             customers[FindIndex(customers, HasId(p.customerId)).value].name != "") ==>
      r.customerName == customers[FindIndex(customers, HasId(p.customerId)).value].name
    ensures (FindIndex(customers, HasId(p.customerId)).None? ||
             customers[FindIndex(customers, HasId(p.customerId)).value].name == "") ==>
      r.customerName == UnknownCustomer
  {
    var name :=
      match FindIndex(customers, HasId(p.customerId))
      case Some(i) => if customers[i].name != "" then customers[i].name else UnknownCustomer
      case None => UnknownCustomer;
    var futuro := p.totalAmount - p.paidAmount;
    PaymentRow(name, if p.status == Vencido then futuro else 0.0, futuro, p.status)
  }

  /** `creditPayments.slice(0, 8)` turned into rows. */
  function PaymentRows(payments: seq<CreditPayment>, customers: seq<Customer>): (rows: seq<PaymentRow>)
    ensures |rows| == if |payments| < 8 then |payments| else 8
    ensures forall i :: 0 <= i < |rows| ==> rows[i] == Row(payments[i], customers)
  {
    var shown := FirstN(payments, 8);
    seq(|shown|, i requires 0 <= i < |shown| => Row(shown[i], customers))
  }
}
