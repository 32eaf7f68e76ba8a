/** The administrator's product list (`Admin/ProdutosPage`): a local
    catalogue, its categories, the search and category filter, and deletion
    after confirmation. */
module ProdutosPage {
  import opened Seqs
  import opened Text

  /** A product; the image URL is not modelled. */
  datatype Produto = Produto(id: string, nome: string, preco: real, categoria: string, estoque: int, descricao: string)

  const ProdutosIniciais: seq<Produto> := [
    Produto("1", "Tênis Nike Air Max", 299.99, "Calçados", 5, "Tênis esportivo de alta qualidade"),
    Produto("2", "Smartphone Samsung", 899.99, "Eletrônicos", 3, "Smartphone Android com 128GB"),
    Produto("3", "Camiseta Polo", 79.99, "Roupas", 10, "Camiseta polo 100% algodão")
  ]

  function CategoriasDe(produtos: seq<Produto>): (cs: seq<string>)
    ensures |cs| == |produtos|
    ensures forall i :: 0 <= i < |produtos| ==> cs[i] == produtos[i].categoria
  {
    seq(|produtos|, i requires 0 <= i < |produtos| => produtos[i].categoria)
  }

  /** `categorias`: the distinct categories, each listed once. */
  function Categorias(produtos: seq<Produto>): (r: seq<string>)
    ensures NoDup(r)
    ensures IsSubseq(r, CategoriasDe(produtos))
    ensures forall c :: c in r <==> exists i :: 0 <= i < |produtos| && produtos[i].categoria == c
  {
    var cs := CategoriasDe(produtos);
    var r := Dedupe(cs);
    assert forall i :: 0 <= i < |produtos| ==> cs[i] in r;
    r
  }

  /** Whether a product passes the search text and the category filter. */
  function Passa(busca: string, filtroCategoria: string): Produto -> bool {
    (p: Produto) => Contains(Lower(p.nome), Lower(busca)) && (filtroCategoria == "" || p.categoria == filtroCategoria)
  }

  /** `produtosFiltrados`: the products, in order, whose lowercased name
      contains the lowercased search text and whose category is the filter
      when one is chosen. */
  function ProdutosFiltrados(produtos: seq<Produto>, busca: string, filtroCategoria: string): (r: seq<Produto>)
    ensures IsSubseq(r, produtos)
    ensures forall i :: 0 <= i < |r| ==> Contains(Lower(r[i].nome), Lower(busca))
    ensures filtroCategoria != "" ==> forall i :: 0 <= i < |r| ==> r[i].categoria == filtroCategoria
    ensures forall i :: 0 <= i < |produtos| && Passa(busca, filtroCategoria)(produtos[i]) ==> produtos[i] in r
  {
    FilterIsSubseq(produtos, Passa(busca, filtroCategoria));
    Filter(produtos, Passa(busca, filtroCategoria))
  }

  /** With no search text and no category chosen, the whole list shows. */
  lemma SemFiltroMostraTudo(produtos: seq<Produto>)
    ensures ProdutosFiltrados(produtos, "", "") == produtos
  {
    forall i | 0 <= i < |produtos| ensures Passa("", "")(produtos[i]) {
      assert Contains(Lower(produtos[i].nome), "");
    }
    FilterKeepsAll(produtos, Passa("", ""));
  }

  function ProdutoId(p: Produto): string {
    p.id
  }

  class Page {
    var produtos: seq<Produto>
    var filtroCategoria: string
    var busca: string

    constructor ()
      ensures produtos == ProdutosIniciais && filtroCategoria == "" && busca == ""
    {
      produtos := ProdutosIniciais;
      filtroCategoria := "";
      busca := "";
    }

    method SetBusca(b: string)
      modifies this
      ensures busca == b && produtos == old(produtos) && filtroCategoria == old(filtroCategoria)
    {
      busca := b;
    }

    method SetFiltroCategoria(c: string)
      modifies this
      ensures filtroCategoria == c && produtos == old(produtos) && busca == old(busca)
    {
      filtroCategoria := c;
    }

    /** `excluirProduto`; `confirmed` is the answer to the confirmation dialog. */
    method ExcluirProduto(id: string, confirmed: bool)
      modifies this
      ensures produtos == if confirmed then ExcludeKey(old(produtos), ProdutoId, id) else old(produtos)
      ensures filtroCategoria == old(filtroCategoria) && busca == old(busca)
    {
      if confirmed {
        produtos := ExcludeKey(produtos, ProdutoId, id);
      }
    }
  }
}
