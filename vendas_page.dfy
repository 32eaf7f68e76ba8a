/** The cashier's sales page (`VendasPage`): a cart bounded by the stock of a
    fixed four-product catalogue, a sale that only clears the cart, and the
    crediário form with down payment, limit check and installments. */
module VendasPage {
  import opened Seqs
  import Cart
  import opened DataContext

  /** A catalogue entry; the image URL is not modelled. */
  datatype Produto = Produto(id: string, nome: string, preco: real, categoria: string, estoque: int)

  const Catalogo: seq<Produto> := [
    Produto("1", "Tênis Nike Air Max", 299.99, "Calçados", 5),
    Produto("2", "Smartphone Samsung", 899.99, "Eletrônicos", 3),
    Produto("3", "Camiseta Polo", 79.99, "Roupas", 10),
    Produto("4", "Relógio Digital", 199.99, "Acessórios", 7)
  ]

  /** The installment counts the form offers. */
  const ParcelaOptions: seq<int> := [1, 2, 3, 4, 5, 6, 10, 12]

  datatype ItemCarrinho = ItemCarrinho(produto: Produto, quantidade: int)

  datatype Cliente = Cliente(nome: string, cpf: string, telefone: string, limite: real)

  const ClienteVazio := Cliente("", "", "", 0.0)

  function TemId(id: string): ItemCarrinho -> bool {
    (it: ItemCarrinho) => it.produto.id == id
  }

  function SemId(id: string): ItemCarrinho -> bool {
    (it: ItemCarrinho) => it.produto.id != id
  }

  function ProdutoComId(id: string): Produto -> bool {
    (p: Produto) => p.id == id
  }

  /** A catalogue the stock rule can be kept against: distinct ids, and at
      least one unit of every product (a new item enters with one unit and
      no stock check). */
  predicate CatalogoValido(produtos: seq<Produto>) {
    (forall i, j :: 0 <= i < j < |produtos| ==> produtos[i].id != produtos[j].id) &&
    (forall i :: 0 <= i < |produtos| ==> produtos[i].estoque >= 1)
  }

  predicate IdsUnicos(c: seq<ItemCarrinho>) {
    forall i, j :: 0 <= i < j < |c| ==> c[i].produto.id != c[j].produto.id
  }

  /** One item per product, each product taken from the catalogue, and
      between one unit and the product's stock. */
  predicate CarrinhoValido(c: seq<ItemCarrinho>, produtos: seq<Produto>) {
    IdsUnicos(c) &&
    forall i :: 0 <= i < |c| ==> c[i].produto in produtos && 1 <= c[i].quantidade <= c[i].produto.estoque
  }

  lemma CatalogoIsValid()
    ensures CatalogoValido(Catalogo)
  {
  }

  /** `adicionarAoCarrinho`: `None` when the product is in the cart and its
      quantity already reached the stock; a new product enters with one
      unit without looking at the stock. */
  function Adicionar(c: seq<ItemCarrinho>, produto: Produto): (r: Option<seq<ItemCarrinho>>)
    ensures FindIndex(c, TemId(produto.id)).None? ==> r == Some(c + [ItemCarrinho(produto, 1)])
    ensures FindIndex(c, TemId(produto.id)).Some? ==>
      (r.None? <==> c[FindIndex(c, TemId(produto.id)).value].quantidade >= produto.estoque)
    ensures FindIndex(c, TemId(produto.id)).Some? && r.Some? ==> |r.value| == |c|
    ensures FindIndex(c, TemId(produto.id)).Some? && r.Some? ==> forall i :: 0 <= i < |c| ==>
      r.value[i] == if c[i].produto.id == produto.id then c[i].(quantidade := c[i].quantidade + 1) else c[i]
  {
    match FindIndex(c, TemId(produto.id))
    case Some(k) =>
      if c[k].quantidade < produto.estoque then
        Some(seq(|c|, i requires 0 <= i < |c| =>
          if c[i].produto.id == produto.id then c[i].(quantidade := c[i].quantidade + 1) else c[i]))
      else None
    case None => Some(c + [ItemCarrinho(produto, 1)])
  }

  /** `removerDoCarrinho`. */
  function Remover(c: seq<ItemCarrinho>, id: string): (r: seq<ItemCarrinho>)
    ensures IsSubseq(r, c)
    ensures forall i :: 0 <= i < |r| ==> r[i].produto.id != id
    ensures forall i :: 0 <= i < |c| && c[i].produto.id != id ==> c[i] in r
  {
    FilterIsSubseq(c, SemId(id));
    Filter(c, SemId(id))
  }

  /** `alterarQuantidade`: a quantity of zero or less removes the product;
      `None` when the catalogue holds fewer units than asked; otherwise the
      item's quantity becomes `q`. */
  function Alterar(c: seq<ItemCarrinho>, id: string, q: int, produtos: seq<Produto>): (r: Option<seq<ItemCarrinho>>)
    ensures q <= 0 ==> r == Some(Remover(c, id))
    ensures q > 0 ==>
      (r.None? <==> FindIndex(produtos, ProdutoComId(id)).Some? &&
                    q > produtos[FindIndex(produtos, ProdutoComId(id)).value].estoque)
    ensures q > 0 && r.Some? ==> |r.value| == |c|
    ensures q > 0 && r.Some? ==> forall i :: 0 <= i < |c| ==>
      r.value[i] == if c[i].produto.id == id then c[i].(quantidade := q) else c[i]
  {
    if q <= 0 then Some(Remover(c, id))
    else match FindIndex(produtos, ProdutoComId(id))
      case Some(k) =>
        if q > produtos[k].estoque then None
        else Some(seq(|c|, i requires 0 <= i < |c| => if c[i].produto.id == id then c[i].(quantidade := q) else c[i]))
      case None =>
        Some(seq(|c|, i requires 0 <= i < |c| => if c[i].produto.id == id then c[i].(quantidade := q) else c[i]))
  }

  /** `calcularTotal`: the sum of price times quantity. */
  function CalcularTotal(c: seq<ItemCarrinho>): real
    decreases |c|
  {
    if c == [] then 0.0
    else CalcularTotal(c[..|c| - 1]) + c[|c| - 1].produto.preco * c[|c| - 1].quantidade as real
  }

  /** The cart of this page seen as the shared point-of-sale cart. */
  function AsCartItem(it: ItemCarrinho): Cart.CartItem {
    Cart.CartItem(it.produto.id, it.produto.nome, it.produto.preco, it.quantidade)
  }

  function ToCart(c: seq<ItemCarrinho>): (r: seq<Cart.CartItem>)
    ensures |r| == |c|
    ensures forall i :: 0 <= i < |c| ==> r[i] == AsCartItem(c[i])
  {
    seq(|c|, i requires 0 <= i < |c| => AsCartItem(c[i]))
  }

  lemma {:induction false} CalcularTotalIsCartTotal(c: seq<ItemCarrinho>)
    ensures CalcularTotal(c) == Cart.Total(ToCart(c))
    decreases |c|
  {
    if c != [] {
      CalcularTotalIsCartTotal(c[..|c| - 1]);
      assert ToCart(c)[..|c| - 1] == ToCart(c[..|c| - 1]);
    }
  }

  lemma ToCartCons(x: ItemCarrinho, s: seq<ItemCarrinho>)
    ensures ToCart([x] + s) == [AsCartItem(x)] + ToCart(s)
  {
    var l, r := ToCart([x] + s), [AsCartItem(x)] + ToCart(s);
    forall i | 0 <= i < |l| ensures l[i] == r[i] {
      if i > 0 {
        assert ([x] + s)[i] == s[i - 1];
      }
    }
  }

  lemma {:induction false} ToCartFilter(c: seq<ItemCarrinho>, id: string)
    ensures ToCart(Filter(c, SemId(id))) == Filter(ToCart(c), Cart.Lacks(id))
    decreases |c|
  {
    if c != [] {
      var x, rest := c[0], c[1..];
      ToCartFilter(rest, id);
      assert c == [x] + rest;
      ToCartCons(x, rest);
      var t := ToCart(c);
      assert t[0] == AsCartItem(x) && t[1..] == ToCart(rest);
      assert Cart.Lacks(id)(t[0]) == SemId(id)(x);
      if SemId(id)(x) {
        ToCartCons(x, Filter(rest, SemId(id)));
      }
    }
  }

  lemma FindAgrees(c: seq<ItemCarrinho>, id: string)
    ensures FindIndex(c, TemId(id)).Some? <==> Cart.InCart(ToCart(c), id)
  {
    if Cart.InCart(ToCart(c), id) {
      var k := FindIndex(ToCart(c), Cart.Matches(id)).value;
      assert TemId(id)(c[k]);
    }
  }

  /** Adding to this cart is adding to the shared cart under `ToCart`, so the
      two pages' carts agree wherever the stock allows the addition. */
  lemma AdicionarAgrees(c: seq<ItemCarrinho>, produto: Produto)
    requires Adicionar(c, produto).Some?
    ensures ToCart(Adicionar(c, produto).value) == Cart.AddToCart(ToCart(c), produto.id, produto.nome, produto.preco)
  {
    FindAgrees(c, produto.id);
    var a := ToCart(Adicionar(c, produto).value);
    var r := Cart.AddToCart(ToCart(c), produto.id, produto.nome, produto.preco);
    if Cart.InCart(ToCart(c), produto.id) {
      forall i | 0 <= i < |r| ensures a[i] == r[i] {
        assert ToCart(c)[i] == AsCartItem(c[i]);
      }
    } else {
      assert |a| == |r|;
      forall i | 0 <= i < |r| ensures a[i] == r[i] {
        if i < |c| {
          assert ToCart(c)[i] == AsCartItem(c[i]);
        }
      }
    }
  }

  /** Changing a quantity here is `updateQuantity` of the shared cart, where the stock allows it. */
  lemma AlterarAgrees(c: seq<ItemCarrinho>, id: string, q: int, produtos: seq<Produto>)
    requires Alterar(c, id, q, produtos).Some?
    ensures ToCart(Alterar(c, id, q, produtos).value) == Cart.UpdateQuantity(ToCart(c), id, q)
  {
    if q <= 0 {
      ToCartFilter(c, id);
    }
  }

  /** The product of a cart item is the catalogue entry with its id. */
  lemma ItemIsCatalogueEntry(c: seq<ItemCarrinho>, produtos: seq<Produto>, i: nat, p: Produto)
    requires CarrinhoValido(c, produtos) && CatalogoValido(produtos)
    requires i < |c| && p in produtos && c[i].produto.id == p.id
    ensures c[i].produto == p
  {
    var a :| 0 <= a < |produtos| && produtos[a] == c[i].produto;
    var b :| 0 <= b < |produtos| && produtos[b] == p;
    assert forall x, y :: 0 <= x < |produtos| && 0 <= y < |produtos| && x != y ==> produtos[x].id != produtos[y].id;
  }

  /** With every catalogue product in stock, adding keeps one item per
      product and every quantity between one and the stock. */
  lemma AdicionarValido(c: seq<ItemCarrinho>, produto: Produto, produtos: seq<Produto>)
    requires CarrinhoValido(c, produtos) && CatalogoValido(produtos) && produto in produtos
    requires Adicionar(c, produto).Some?
    ensures CarrinhoValido(Adicionar(c, produto).value, produtos)
  {
    var r := Adicionar(c, produto).value;
    match FindIndex(c, TemId(produto.id))
    case Some(k) =>
      ItemIsCatalogueEntry(c, produtos, k, produto);
      assert forall x, y :: 0 <= x < |c| && 0 <= y < |c| && x != y ==> c[x].produto.id != c[y].produto.id;
    case None =>
      var j :| 0 <= j < |produtos| && produtos[j] == produto;
      assert produtos[j].estoque >= 1;
      assert forall i :: 0 <= i < |c| ==> r[i] == c[i];
  }

  lemma RemoverValido(c: seq<ItemCarrinho>, id: string, produtos: seq<Produto>)
    requires CarrinhoValido(c, produtos)
    ensures CarrinhoValido(Remover(c, id), produtos)
  {
    var r := Remover(c, id);
    ToCartFilter(c, id);
    Cart.UpdateQuantityValid(ToCart(c), id, 0);
    assert Cart.UniqueIds(ToCart(r));
    forall i | 0 <= i < |r|
      ensures r[i].produto in produtos && 1 <= r[i].quantidade <= r[i].produto.estoque
    {
      assert r[i] in c;
    }
  }

  /** Changing a quantity keeps the cart valid: the stock check looks the
      product up in the same catalogue the items came from. */
  lemma AlterarValido(c: seq<ItemCarrinho>, id: string, q: int, produtos: seq<Produto>)
    requires CarrinhoValido(c, produtos) && CatalogoValido(produtos)
    requires Alterar(c, id, q, produtos).Some?
    ensures CarrinhoValido(Alterar(c, id, q, produtos).value, produtos)
  {
    if q <= 0 {
      RemoverValido(c, id, produtos);
    } else {
      var r := Alterar(c, id, q, produtos).value;
      forall i | 0 <= i < |c| && c[i].produto.id == id
        ensures q <= c[i].produto.estoque
      {
        var a :| 0 <= a < |produtos| && produtos[a] == c[i].produto;
        assert ProdutoComId(id)(produtos[a]);
        var k := FindIndex(produtos, ProdutoComId(id)).value;
        ItemIsCatalogueEntry(c, produtos, i, produtos[k]);
      }
    }
  }

  /** Adding a catalogue product to a valid cart raises the total by its price. */
  lemma CalcularTotalAdicionar(c: seq<ItemCarrinho>, produto: Produto, produtos: seq<Produto>)
    requires CarrinhoValido(c, produtos) && CatalogoValido(produtos) && produto in produtos
    requires Adicionar(c, produto).Some?
    ensures CalcularTotal(Adicionar(c, produto).value) == CalcularTotal(c) + produto.preco
  {
    var r := Adicionar(c, produto).value;
    CalcularTotalIsCartTotal(c);
    CalcularTotalIsCartTotal(r);
    AdicionarAgrees(c, produto);
    FindAgrees(c, produto.id);
    match FindIndex(c, TemId(produto.id))
    case Some(k) =>
      ItemIsCatalogueEntry(c, produtos, k, produto);
      assert Cart.UniqueIds(ToCart(c));
      assert ToCart(c)[k].productId == produto.id;
      Cart.TotalAddExisting(ToCart(c), k, produto.nome, produto.preco);
    case None =>
      Cart.TotalAddNew(ToCart(c), produto.id, produto.nome, produto.preco);
  }

  /** The outcome of `finalizarVenda`. */
  datatype Venda = CarrinhoVazio | SemFormaPagamento | AbreCrediario | Finalizada(total: real)

  /** The outcome of `finalizarCrediario`; `parcela` is the installment value. */
  datatype Crediario = DadosIncompletos | LimiteInsuficiente(limite: real) | Aprovado(entrada: real, parcelas: int, parcela: real)

  /** The crediário decision: all three client fields are needed, the amount
      left after the down payment must fit the limit, and it is split into
      equal installments. */
  function DecidirCrediario(cliente: Cliente, total: real, entrada: real, parcelas: int): (r: Crediario)
    requires parcelas in ParcelaOptions
    ensures r == DadosIncompletos <==> cliente.nome == "" || cliente.cpf == "" || cliente.telefone == ""
    ensures r.LimiteInsuficiente? <==>
      cliente.nome != "" && cliente.cpf != "" && cliente.telefone != "" && total - entrada > cliente.limite
    ensures r.LimiteInsuficiente? ==> r.limite == cliente.limite
    ensures r.Aprovado? ==> r.entrada == entrada && r.parcelas == parcelas && parcelas >= 1
    ensures r.Aprovado? ==> r.entrada + r.parcela * r.parcelas as real == total
    ensures r.Aprovado? ==> r.parcela * r.parcelas as real <= cliente.limite
  {
    if cliente.nome == "" || cliente.cpf == "" || cliente.telefone == "" then DadosIncompletos
    else
      var valorParcelado := total - entrada;
      if valorParcelado > cliente.limite then LimiteInsuficiente(cliente.limite)
      else Aprovado(entrada, parcelas, valorParcelado / parcelas as real)
  }

  class Pagina {
    const produtos: seq<Produto>
    var carrinho: seq<ItemCarrinho>
    /** The selected payment method; `None` is the empty selection. */
    var formaPagamento: Option<PaymentMethod>
    var showCrediarioModal: bool
    var cliente: Cliente
    var parcelas: int
    var valorEntrada: real

    ghost predicate Valid()
      reads this
    {
      CatalogoValido(produtos) && CarrinhoValido(carrinho, produtos) && parcelas in ParcelaOptions
    }

    constructor ()
      ensures Valid() && produtos == Catalogo
      ensures carrinho == [] && formaPagamento == None && !showCrediarioModal
      ensures cliente == ClienteVazio && parcelas == 1 && valorEntrada == 0.0
    {
      produtos := Catalogo;
      carrinho := [];
      formaPagamento := None;
      showCrediarioModal := false;
      cliente := ClienteVazio;
      parcelas := 1;
      valorEntrada := 0.0;
    }

    /** A rejected addition (stock reached) leaves the cart as it was. */
    method AdicionarAoCarrinho(produto: Produto) returns (ok: bool)
      requires Valid() && produto in produtos
      modifies this
      ensures Valid()
      ensures ok <==> Adicionar(old(carrinho), produto).Some?
      ensures carrinho == if ok then Adicionar(old(carrinho), produto).value else old(carrinho)
      ensures ok ==> CalcularTotal(carrinho) == CalcularTotal(old(carrinho)) + produto.preco
      ensures formaPagamento == old(formaPagamento) && showCrediarioModal == old(showCrediarioModal)
      ensures cliente == old(cliente) && parcelas == old(parcelas) && valorEntrada == old(valorEntrada)
    {
      var r := Adicionar(carrinho, produto);
      if r.None? {
        return false;
      }
      AdicionarValido(carrinho, produto, produtos);
      CalcularTotalAdicionar(carrinho, produto, produtos);
      carrinho := r.value;
      ok := true;
    }

    method RemoverDoCarrinho(id: string)
      requires Valid()
      modifies this
      ensures Valid()
      ensures carrinho == Remover(old(carrinho), id)
      ensures formaPagamento == old(formaPagamento) && showCrediarioModal == old(showCrediarioModal)
      ensures cliente == old(cliente) && parcelas == old(parcelas) && valorEntrada == old(valorEntrada)
    {
      RemoverValido(carrinho, id, produtos);
      carrinho := Remover(carrinho, id);
    }

    method AlterarQuantidade(id: string, q: int) returns (ok: bool)
      requires Valid()
      modifies this
      ensures Valid()
      ensures ok <==> Alterar(old(carrinho), id, q, produtos).Some?
      ensures carrinho == if ok then Alterar(old(carrinho), id, q, produtos).value else old(carrinho)
      ensures formaPagamento == old(formaPagamento) && showCrediarioModal == old(showCrediarioModal)
      ensures cliente == old(cliente) && parcelas == old(parcelas) && valorEntrada == old(valorEntrada)
    {
      if q <= 0 {
        RemoverDoCarrinho(id);
        return true;
      }
      var r := Alterar(carrinho, id, q, produtos);
      if r.None? {
        return false;
      }
      AlterarValido(carrinho, id, q, produtos);
      carrinho := r.value;
      ok := true;
    }

    method SetFormaPagamento(forma: PaymentMethod)
      modifies this
      ensures formaPagamento == Some(forma)
      ensures carrinho == old(carrinho) && showCrediarioModal == old(showCrediarioModal)
      ensures cliente == old(cliente) && parcelas == old(parcelas) && valorEntrada == old(valorEntrada)
    {
      formaPagamento := Some(forma);
    }

    method SetCliente(c: Cliente)
      modifies this
      ensures cliente == c
      ensures carrinho == old(carrinho) && formaPagamento == old(formaPagamento)
      ensures showCrediarioModal == old(showCrediarioModal)
      ensures parcelas == old(parcelas) && valorEntrada == old(valorEntrada)
    {
      cliente := c;
    }

    /** The installment select only offers `ParcelaOptions`. */
    method SetParcelas(n: int)
      requires Valid() && n in ParcelaOptions
      modifies this
      ensures Valid() && parcelas == n
      ensures carrinho == old(carrinho) && formaPagamento == old(formaPagamento)
      ensures showCrediarioModal == old(showCrediarioModal)
      ensures cliente == old(cliente) && valorEntrada == old(valorEntrada)
    {
      parcelas := n;
    }

    method SetValorEntrada(v: real)
      modifies this
      ensures valorEntrada == v
      ensures carrinho == old(carrinho) && formaPagamento == old(formaPagamento)
      ensures showCrediarioModal == old(showCrediarioModal)
      ensures cliente == old(cliente) && parcelas == old(parcelas)
    {
      valorEntrada := v;
    }

    /** `finalizarVenda`: an empty cart, then a missing payment method, are
        refused; crediário only opens its form; any other method ends the
        sale with the cart total, clearing the cart and the method. */
    method FinalizarVenda() returns (v: Venda)
      requires Valid()
      modifies this
      ensures Valid()
      ensures v == CarrinhoVazio <==> old(carrinho) == []
      ensures v == SemFormaPagamento <==> old(carrinho) != [] && old(formaPagamento) == None
      ensures v == AbreCrediario <==> old(carrinho) != [] && old(formaPagamento) == Some(Crediario)
      ensures !v.Finalizada? ==> carrinho == old(carrinho) && formaPagamento == old(formaPagamento)
      ensures showCrediarioModal == (v == AbreCrediario || old(showCrediarioModal))
      ensures v.Finalizada? ==> v.total == CalcularTotal(old(carrinho)) && carrinho == [] && formaPagamento == None
      ensures cliente == old(cliente) && parcelas == old(parcelas) && valorEntrada == old(valorEntrada)
    {
      if |carrinho| == 0 {
        return CarrinhoVazio;
      }
      if formaPagamento.None? {
        return SemFormaPagamento;
      }
      if formaPagamento == Some(Crediario) {
        showCrediarioModal := true;
        return AbreCrediario;
      }
      v := Finalizada(CalcularTotal(carrinho));
      carrinho := [];
      formaPagamento := None;
    }

    /** `finalizarCrediario`: on approval everything the form collected is
        reset (cart, method, client, one installment, no down payment) and
        the form closes; on refusal nothing changes. */
    method FinalizarCrediario() returns (r: Crediario)
      requires Valid()
      modifies this
      ensures Valid()
      ensures r == DecidirCrediario(old(cliente), CalcularTotal(old(carrinho)), old(valorEntrada), old(parcelas))
      ensures !r.Aprovado? ==>
        carrinho == old(carrinho) && formaPagamento == old(formaPagamento) &&
        showCrediarioModal == old(showCrediarioModal) && cliente == old(cliente) &&
        parcelas == old(parcelas) && valorEntrada == old(valorEntrada)
      ensures r.Aprovado? ==>
        carrinho == [] && formaPagamento == None && !showCrediarioModal &&
        cliente == ClienteVazio && parcelas == 1 && valorEntrada == 0.0
    {
      if cliente.nome == "" || cliente.cpf == "" || cliente.telefone == "" {
        return DadosIncompletos;
      }
      var total := CalcularTotal(carrinho);
      var valorParcelado := total - valorEntrada;
      if valorParcelado > cliente.limite {
        return LimiteInsuficiente(cliente.limite);
      }
      var valorParcela := valorParcelado / parcelas as real;
      r := Aprovado(valorEntrada, parcelas, valorParcela);
      carrinho := [];
      formaPagamento := None;
      showCrediarioModal := false;
      cliente := ClienteVazio;
      parcelas := 1;
      valorEntrada := 0.0;
    }
  }
}
