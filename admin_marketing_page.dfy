/** The administrator's promotion page (`Admin/MarketingPage`): a selection of
    catalogue products, a promotional text generated after a delay from the
    selection, and a delayed send that clears the page. The delayed parts run
    as a second step that receives what the first step captured. */
module AdminMarketingPage {
  import opened Seqs
  import opened Text

  /** A catalogue entry; the image URL is not modelled. */
  datatype Produto = Produto(id: string, nome: string, preco: real, categoria: string)

  const Catalogo: seq<Produto> := [
    Produto("1", "Tênis Nike Air Max", 299.99, "Calçados"),
    Produto("2", "Smartphone Samsung", 899.99, "Eletrônicos"),
    Produto("3", "Camiseta Polo", 79.99, "Roupas"),
    Produto("4", "Relógio Digital", 199.99, "Acessórios")
  ]

  function Selecionado(sel: seq<string>): Produto -> bool {
    (p: Produto) => p.id in sel
  }

  /** One line of the product block: name and price with two decimals. */
  function Linha(p: Produto): string {
    p.nome + " - R$ " + ToFixed2(p.preco)
  }

  /** The selected products, in catalogue order. */
  function Escolhidos(produtos: seq<Produto>, sel: seq<string>): (r: seq<Produto>)
    ensures IsSubseq(r, produtos)
    ensures forall i :: 0 <= i < |r| ==> r[i].id in sel
    ensures forall i :: 0 <= i < |produtos| && produtos[i].id in sel ==> produtos[i] in r
  {
    FilterIsSubseq(produtos, Selecionado(sel));
    Filter(produtos, Selecionado(sel))
  }

  function Linhas(ps: seq<Produto>): (r: seq<string>)
    ensures |r| == |ps|
    ensures forall i :: 0 <= i < |ps| ==> r[i] == Linha(ps[i])
  {
    seq(|ps|, i requires 0 <= i < |ps| => Linha(ps[i]))
  }

  /** `produtosTexto`: one line per selected product, joined by newlines. */
  function ProdutosTexto(produtos: seq<Produto>, sel: seq<string>): string {
    Join(Linhas(Escolhidos(produtos, sel)), "\n")
  }

  /** The block has exactly one line per selected catalogue product, as
      long as no product name holds a line break. */
  lemma UmaLinhaPorProduto(produtos: seq<Produto>, sel: seq<string>)
    requires forall i :: 0 <= i < |produtos| ==> '\n' !in produtos[i].nome
    requires Escolhidos(produtos, sel) != []
    ensures Occurrences(ProdutosTexto(produtos, sel), '\n') == |Escolhidos(produtos, sel)| - 1
  {
    var ps := Escolhidos(produtos, sel);
    var ls := Linhas(ps);
    forall i | 0 <= i < |ls| ensures '\n' !in ls[i] {
      assert ps[i] in produtos;
      assert '\n' !in ToFixed2(ps[i].preco);
    }
    JoinSeparators(ls, '\n');
  }

  /** The block follows the catalogue, not the order (or repetitions) in
      which products were selected: selections with the same members give
      the same text. */
  lemma OrdemDoCatalogo(produtos: seq<Produto>, sel1: seq<string>, sel2: seq<string>)
    requires forall x :: x in sel1 <==> x in sel2
    ensures ProdutosTexto(produtos, sel1) == ProdutosTexto(produtos, sel2)
  {
    FilterExtensional(produtos, Selecionado(sel1), Selecionado(sel2));
  }

  const Cabecalho := "🔥" + " SUPER PROMOÇÃO LOJAS DAORA! 🔥\n\nAproveite estas ofertas imperdíveis:\n\n"

  const Rodape := "\n\n⚡ Ofertas por tempo limitado!\n💳 Parcelamos em até 12x\n🚚 Entrega rápida\n📱 WhatsApp: (11) 99999-9999\n\nNão perca essa oportunidade! \nVenha para a Loja DAORA e aproveite!\n\n#LojaDAORA #Promoção #Ofertas"

  /** `textoGerado`: the fixed template around the product block. */
  function TextoGerado(produtosTexto: string): string {
    Cabecalho + produtosTexto + Rodape
  }

  /** A generated text always passes the send guard. */
  lemma TextoGeradoEnviavel(produtosTexto: string)
    ensures Trim(TextoGerado(produtosTexto)) != ""
  {
    var t := TextoGerado(produtosTexto);
    assert t[0] == Cabecalho[0];
    TrimEmptyIffBlank(t);
  }

  class Page {
    const produtos: seq<Produto>
    var produtosSelecionados: seq<string>
    var textoPromocao: string
    var isGenerating: bool

    ghost predicate Valid()
      reads this
    {
      NoDup(produtosSelecionados)
    }

    constructor ()
      ensures Valid() && produtos == Catalogo
      ensures produtosSelecionados == [] && textoPromocao == "" && !isGenerating
    {
      produtos := Catalogo;
      produtosSelecionados := [];
      textoPromocao := "";
      isGenerating := false;
    }

    /** `toggleProduto`: the selection never holds an id twice. */
    method ToggleProduto(id: string)
      requires Valid()
      modifies this
      ensures Valid()
      ensures produtosSelecionados == Toggle(old(produtosSelecionados), id)
      ensures textoPromocao == old(textoPromocao) && isGenerating == old(isGenerating)
    {
      ToggleNoDup(produtosSelecionados, id);
      produtosSelecionados := Toggle(produtosSelecionados, id);
    }

    method SetTexto(t: string)
      modifies this
      ensures textoPromocao == t
      ensures produtosSelecionados == old(produtosSelecionados) && isGenerating == old(isGenerating)
    {
      textoPromocao := t;
    }

    /** `gerarTextoComIA`, first step: refused for an empty selection;
        otherwise generation starts and the selection of this moment is
        returned for the delayed step. */
    method GerarTextoComIA() returns (captured: Option<seq<string>>)
      modifies this
      ensures captured.None? <==> old(produtosSelecionados) == []
      ensures captured.Some? ==> captured.value == old(produtosSelecionados) && isGenerating
      ensures captured.None? ==> isGenerating == old(isGenerating)
      ensures produtosSelecionados == old(produtosSelecionados) && textoPromocao == old(textoPromocao)
    {
      if |produtosSelecionados| == 0 {
        return None;
      }
      isGenerating := true;
      captured := Some(produtosSelecionados);
    }

    /** The delayed step of `gerarTextoComIA`: the text is built from the
        captured selection, whatever the selection is now. */
    method ConcluirGeracao(captured: seq<string>)
      modifies this
      ensures textoPromocao == TextoGerado(ProdutosTexto(produtos, captured))
      ensures Trim(textoPromocao) != ""
      ensures !isGenerating && produtosSelecionados == old(produtosSelecionados)
    {
      textoPromocao := TextoGerado(ProdutosTexto(produtos, captured));
      TextoGeradoEnviavel(ProdutosTexto(produtos, captured));
      isGenerating := false;
    }

    /** `enviarPromocao`, first step: a blank text is refused; otherwise the
        send is scheduled and nothing changes yet. */
    method EnviarPromocao() returns (ok: bool)
      ensures ok <==> Trim(textoPromocao) != ""
    {
      ok := Trim(textoPromocao) != "";
    }

    /** The delayed step of `enviarPromocao`: selection and text are cleared. */
    method ConcluirEnvio()
      requires Valid()
      modifies this
      ensures Valid()
      ensures produtosSelecionados == [] && textoPromocao == ""
      ensures isGenerating == old(isGenerating)
    {
      produtosSelecionados := [];
      textoPromocao := "";
    }
  }
}
