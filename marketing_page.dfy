/** The WhatsApp promotion page (`pages/MarketingPage`): a selection over the
    store's products, a promotional text naming the selected products with
    an optional discount, and a send that resets the page. */
module MarketingPage {
  import opened Seqs
  import opened Text
  import opened DataContext

  function IsSelected(selected: seq<string>): Product -> bool {
    (p: Product) => p.id in selected
  }

  /** `selectedProductsData`: the store's products whose id is selected, in
      catalogue order; ids that name no product are ignored. */
  function SelectedProducts(products: seq<Product>, selected: seq<string>): (r: seq<Product>)
    ensures IsSubseq(r, products)
    ensures forall i :: 0 <= i < |r| ==> r[i].id in selected
    ensures forall i :: 0 <= i < |products| && products[i].id in selected ==> products[i] in r
  {
    FilterIsSubseq(products, IsSelected(selected));
    Filter(products, IsSelected(selected))
  }

  function Names(ps: seq<Product>): (r: seq<string>)
    ensures |r| == |ps|
    ensures forall i :: 0 <= i < |ps| ==> r[i] == ps[i].name
  {
    seq(|ps|, i requires 0 <= i < |ps| => ps[i].name)
  }

  /** `productNames`. */
  function ProductNames(products: seq<Product>, selected: seq<string>): string {
    Join(Names(SelectedProducts(products, selected)), ", ")
  }

  /** `discountText`: empty without a discount, otherwise the phrase naming it. */
  function DiscountText(discount: string): (r: string)
    ensures r == "" <==> discount == ""
    ensures discount != "" ==> r == " com " + discount + "% de desconto"
  {
    if discount != "" then " com " + discount + "% de desconto" else ""
  }

  const Opening := "🔥" + " PROMOÇÃO IMPERDÍVEL! 🔥\n\n✨ "

  const Closing := "\n\n📱 Garante já o seu! Estoque limitado!\n💳 Aceitamos PIX, Cartão e Crediário\n🚚 Entrega rápida\n\nVenha conhecer nossa loja ou chame no WhatsApp!\n\n#PromocaoDaora #Ofertas #LojasDaora"

  /** `aiText`: the template around the names and the discount phrase. */
  function AiText(products: seq<Product>, selected: seq<string>, discount: string): string {
    Opening + ProductNames(products, selected) + DiscountText(discount) + Closing
  }

  /** Names follow the store's catalogue, so selections with the same
      members produce the same text. */
  lemma AiTextIgnoresSelectionOrder(products: seq<Product>, s1: seq<string>, s2: seq<string>, discount: string)
    requires forall x :: x in s1 <==> x in s2
    ensures AiText(products, s1, discount) == AiText(products, s2, discount)
  {
    FilterExtensional(products, IsSelected(s1), IsSelected(s2));
  }

  /** A generated text is never blank, so it can always be sent. */
  lemma AiTextSendable(products: seq<Product>, selected: seq<string>, discount: string)
    ensures Trim(AiText(products, selected, discount)) != ""
  {
    var t := AiText(products, selected, discount);
    assert t[0] == Opening[0];
    TrimEmptyIffBlank(t);
  }

  class Page {
    const products: seq<Product>
    var selectedProducts: seq<string>
    var promotionText: string
    var discount: string

    ghost predicate Valid()
      reads this
    {
      NoDup(selectedProducts)
    }

    constructor (products: seq<Product>)
      ensures Valid() && this.products == products
      ensures selectedProducts == [] && promotionText == "" && discount == ""
    {
      this.products := products;
      selectedProducts := [];
      promotionText := "";
      discount := "";
    }

    /** `toggleProductSelection`: the selection never holds an id twice. */
    method ToggleProductSelection(id: string)
      requires Valid()
      modifies this
      ensures Valid()
      ensures selectedProducts == Toggle(old(selectedProducts), id)
      ensures promotionText == old(promotionText) && discount == old(discount)
    {
      ToggleNoDup(selectedProducts, id);
      selectedProducts := Toggle(selectedProducts, id);
    }

    method SetDiscount(d: string)
      modifies this
      ensures discount == d
      ensures selectedProducts == old(selectedProducts) && promotionText == old(promotionText)
    {
      discount := d;
    }

    method SetPromotionText(t: string)
      modifies this
      ensures promotionText == t
      ensures selectedProducts == old(selectedProducts) && discount == old(discount)
    {
      promotionText := t;
    }

    /** `generateAIText`: refused when no product of the store is selected
        (a selection of unknown ids counts as empty); otherwise the text is
        replaced by the generated one. */
    method GenerateAIText() returns (ok: bool)
      modifies this
      ensures ok <==> SelectedProducts(products, old(selectedProducts)) != []
      ensures ok ==> promotionText == AiText(products, old(selectedProducts), old(discount)) && Trim(promotionText) != ""
      ensures !ok ==> promotionText == old(promotionText)
      ensures selectedProducts == old(selectedProducts) && discount == old(discount)
    {
      var data := SelectedProducts(products, selectedProducts);
      if |data| == 0 {
        return false;
      }
      promotionText := AiText(products, selectedProducts, discount);
      AiTextSendable(products, selectedProducts, discount);
      ok := true;
    }

    /** `sendPromotion`: a blank text is refused; a sent promotion resets
        the text, the selection and the discount. */
    method SendPromotion() returns (ok: bool)
      requires Valid()
      modifies this
      ensures Valid()
      ensures ok <==> Trim(old(promotionText)) != ""
      ensures ok ==> promotionText == "" && selectedProducts == [] && discount == ""
      ensures !ok ==> promotionText == old(promotionText) && selectedProducts == old(selectedProducts) && discount == old(discount)
    {
      if Trim(promotionText) == "" {
        return false;
      }
      promotionText := "";
      selectedProducts := [];
      discount := "";
      ok := true;
    }
  }
}
