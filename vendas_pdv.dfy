/** The second point-of-sale screen (`VendasPDV`): it keeps its own register
    record, separate from the global store, and the same cart as `PDVPage`. */
module VendasPdv {
  import Cart
  import opened Seqs
  import opened DataContext

  /** A product of the generated catalogue; category and image are not modelled. */
  datatype Product = Product(id: string, name: string, price: real)

  datatype CaixaStatus = CaixaStatus(isOpen: bool, valorAbertura: real, valorAtual: real)

  datatype CaixaAction = Abrir | Fechar | Sangria

  datatype SaleOutcome = RegisterClosed | CartEmpty | ClientFormOpened | Completed(total: real)

  class Screen {
    var cart: seq<Cart.CartItem>
    var paymentMethod: PaymentMethod
    var showClientModal: bool
    var showCaixaModal: bool
    var caixaStatus: CaixaStatus

    ghost predicate Valid()
      reads this
    {
      Cart.Valid(cart)
    }

    /** An empty cart, Pix selected, and a closed register holding nothing. */
    constructor ()
      ensures Valid() && cart == [] && paymentMethod == Pix
      ensures !showClientModal && !showCaixaModal
      ensures caixaStatus == CaixaStatus(false, 0.0, 0.0)
    {
      cart := [];
      paymentMethod := Pix;
      showClientModal := false;
      showCaixaModal := false;
      caixaStatus := CaixaStatus(false, 0.0, 0.0);
    }

    method AddToCart(product: Product)
      requires Valid()
      modifies this
      ensures Valid()
      ensures cart == Cart.AddToCart(old(cart), product.id, product.name, product.price)
      ensures Cart.Total(cart) == Cart.Total(old(cart)) +
        (if Cart.InCart(old(cart), product.id)
         then old(cart)[FindIndex(old(cart), Cart.Matches(product.id)).value].price
         else product.price)
      ensures paymentMethod == old(paymentMethod) && caixaStatus == old(caixaStatus)
      ensures showClientModal == old(showClientModal) && showCaixaModal == old(showCaixaModal)
    {
      Cart.AddToCartValid(cart, product.id, product.name, product.price);
      Cart.TotalAddToCart(cart, product.id, product.name, product.price);
      cart := Cart.AddToCart(cart, product.id, product.name, product.price);
    }

    method UpdateQuantity(id: string, quantity: int)
      requires Valid()
      modifies this
      ensures Valid()
      ensures cart == Cart.UpdateQuantity(old(cart), id, quantity)
      ensures paymentMethod == old(paymentMethod) && caixaStatus == old(caixaStatus)
      ensures showClientModal == old(showClientModal) && showCaixaModal == old(showCaixaModal)
    {
      Cart.UpdateQuantityValid(cart, id, quantity);
      cart := Cart.UpdateQuantity(cart, id, quantity);
    }

    method SetPaymentMethod(pm: PaymentMethod)
      modifies this
      ensures paymentMethod == pm && cart == old(cart) && caixaStatus == old(caixaStatus)
      ensures showClientModal == old(showClientModal) && showCaixaModal == old(showCaixaModal)
    {
      paymentMethod := pm;
    }

    /** `finalizeSale`: a closed register, then an empty cart, refuse the
        sale; crediário only opens the client form; any other method adds the
        cart total to the register and empties the cart. */
    method FinalizeSale() returns (o: SaleOutcome)
      requires Valid()
      modifies this
      ensures Valid()
      ensures o == RegisterClosed <==> !old(caixaStatus.isOpen)
      ensures o == CartEmpty <==> old(caixaStatus.isOpen) && old(cart) == []
      ensures o == ClientFormOpened <==> old(caixaStatus.isOpen) && old(cart) != [] && old(paymentMethod) == Crediario
      ensures showClientModal == (o == ClientFormOpened || old(showClientModal))
      ensures !o.Completed? ==> cart == old(cart) && caixaStatus == old(caixaStatus)
      ensures o.Completed? ==>
        o.total == Cart.Total(old(cart)) && cart == [] &&
        caixaStatus == old(caixaStatus).(valorAtual := old(caixaStatus.valorAtual) + o.total)
      ensures paymentMethod == old(paymentMethod) && showCaixaModal == old(showCaixaModal)
    {
      if !caixaStatus.isOpen {
        return RegisterClosed;
      }
      if |cart| == 0 {
        return CartEmpty;
      }
      if paymentMethod == Crediario {
        showClientModal := true;
        return ClientFormOpened;
      }
      var total := Cart.Total(cart);
      caixaStatus := caixaStatus.(valorAtual := caixaStatus.valorAtual + total);
      cart := [];
      o := Completed(total);
    }

    /** `handleCaixaAction`. `valor` is `None` when no amount was given.
        Opening needs an amount and sets both amounts to it; closing always
        zeroes the register; a withdrawal needs an amount no larger than the
        cash held (it is not checked for sign nor for an open register).
        The register dialog closes in every case. */
    method HandleCaixaAction(action: CaixaAction, valor: Option<real>) returns (ok: bool)
      modifies this
      ensures ok <==> match action
        case Abrir => valor.Some?
        case Fechar => true
        case Sangria => valor.Some? && valor.value <= old(caixaStatus.valorAtual)
      ensures !ok ==> caixaStatus == old(caixaStatus)
      ensures ok && action == Abrir ==> caixaStatus == CaixaStatus(true, valor.value, valor.value)
      ensures action == Fechar ==> caixaStatus == CaixaStatus(false, 0.0, 0.0)
      ensures ok && action == Sangria ==>
        caixaStatus == old(caixaStatus).(valorAtual := old(caixaStatus.valorAtual) - valor.value)
      ensures action == Sangria && old(caixaStatus.valorAtual) >= 0.0 ==> caixaStatus.valorAtual >= 0.0
      ensures !showCaixaModal
      ensures cart == old(cart) && paymentMethod == old(paymentMethod) && showClientModal == old(showClientModal)
    {
      match action {
        case Abrir =>
          ok := valor.Some?;
          if ok {
            caixaStatus := CaixaStatus(true, valor.value, valor.value);
          }
        case Fechar =>
          caixaStatus := CaixaStatus(false, 0.0, 0.0);
          ok := true;
        case Sangria =>
          ok := valor.Some? && valor.value <= caixaStatus.valorAtual;
          if ok {
            caixaStatus := caixaStatus.(valorAtual := caixaStatus.valorAtual - valor.value);
          }
      }
      showCaixaModal := false;
    }

    /** The client form's approve button: the cart total goes into the
        register, the cart empties and the form closes, with no check of the
        register, the client or any limit. */
    method ApproveCreditSale() returns (total: real)
      requires Valid()
      modifies this
      ensures Valid()
      ensures total == Cart.Total(old(cart))
      ensures caixaStatus == old(caixaStatus).(valorAtual := old(caixaStatus.valorAtual) + total)
      ensures cart == [] && !showClientModal
      ensures paymentMethod == old(paymentMethod) && showCaixaModal == old(showCaixaModal)
    {
      total := Cart.Total(cart);
      caixaStatus := caixaStatus.(valorAtual := caixaStatus.valorAtual + total);
      cart := [];
      showClientModal := false;
    }
  }
}
