/** The WhatsApp connections page (`SuperAdmin/ConexoesPage`): each store's
    connection shows a status, and a disconnected one can be reconnected in
    two steps, the second of which runs after a delay on the list captured by
    the first. */
module ConexoesPage {
  import opened Seqs

  datatype Status = Conectado | Desconectado | Conectando

  datatype Conexao = Conexao(id: string, nome: string, numero: string, status: Status, ultimaAtividade: string, loja: string)

  const ConexoesIniciais: seq<Conexao> := [
    Conexao("1", "WhatsApp Loja Centro", "+55 11 99999-9999", Conectado, "2 min atrás", "Loja Centro"),
    Conexao("2", "WhatsApp Loja Shopping", "+55 11 88888-8888", Conectado, "5 min atrás", "Loja Shopping"),
    Conexao("3", "WhatsApp Loja Norte", "+55 11 77777-7777", Desconectado, "2 horas atrás", "Loja Norte")
  ]

  /** The text the page stores for each status. */
  function StatusName(s: Status): string {
    match s
    case Conectado => "conectado"
    case Desconectado => "desconectado"
    case Conectando => "conectando"
  }

  /** `getStatusColor`: green, red and yellow for the three statuses, grey
      for any other text. */
  function StatusColor(status: string): string {
    if status == "conectado" then "text-green-600"
    else if status == "desconectado" then "text-red-600"
    else if status == "conectando" then "text-yellow-600"
    else "text-gray-600"
  }

  datatype Icon = CheckCircle | XCircle | RefreshCw

  /** `getStatusIcon`: an unknown status shows the disconnected icon. */
  function StatusIcon(status: string): Icon {
    if status == "conectado" then CheckCircle
    else if status == "conectando" then RefreshCw
    else XCircle
  }

  /** Each status has its own colour, none of them the fallback grey, and
      its own icon. */
  lemma StatusStylesDistinct(s: Status, t: Status)
    ensures StatusColor(StatusName(s)) != "text-gray-600"
    ensures s != t ==> StatusColor(StatusName(s)) != StatusColor(StatusName(t))
    ensures s != t ==> StatusIcon(StatusName(s)) != StatusIcon(StatusName(t))
  {
    assert StatusName(Conectado) != StatusName(Desconectado);
    assert StatusName(Conectado)[7] != StatusName(Conectando)[7];
    assert StatusName(Desconectado) != StatusName(Conectando);
  }

  /** The first step of `reconectar`: the connections with that id become
      `conectando`; nothing else changes. */
  function MarkConnecting(cs: seq<Conexao>, id: string): (r: seq<Conexao>)
    ensures |r| == |cs|
    ensures forall i :: 0 <= i < |cs| ==> r[i] == if cs[i].id == id then cs[i].(status := Conectando) else cs[i]
  {
    seq(|cs|, i requires 0 <= i < |cs| => if cs[i].id == id then cs[i].(status := Conectando) else cs[i])
  }

  /** The delayed step: the connections with that id become `conectado`,
      active `agora`. */
  function MarkConnected(cs: seq<Conexao>, id: string): (r: seq<Conexao>)
    ensures |r| == |cs|
    ensures forall i :: 0 <= i < |cs| ==>
      r[i] == if cs[i].id == id then cs[i].(status := Conectado, ultimaAtividade := "agora") else cs[i]
  {
    seq(|cs|, i requires 0 <= i < |cs| =>
      if cs[i].id == id then cs[i].(status := Conectado, ultimaAtividade := "agora") else cs[i])
  }

  /** The reconnect button is shown only for a disconnected connection. */
  predicate ReconnectOffered(c: Conexao) {
    c.status == Desconectado
  }

  /** While a connection is reconnecting its button is gone, and once the
      delayed step ran on the captured list it is connected. */
  lemma ReconnectCycle(cs: seq<Conexao>, id: string, i: nat)
    requires i < |cs| && cs[i].id == id
    ensures !ReconnectOffered(MarkConnecting(cs, id)[i])
    ensures MarkConnected(cs, id)[i].status == Conectado
    ensures MarkConnected(cs, id)[i].ultimaAtividade == "agora"
  {
  }

  /** The delayed step writes back the list captured at the click, so two
      reconnections started one after the other, `a` then `b`, and finishing
      in the same order leave `a` stuck in `conectando`. */
  lemma OverlappingReconnectsLoseFirst(cs: seq<Conexao>, a: string, b: string, i: nat)
    requires a != b && i < |cs| && cs[i].id == a
    ensures var afterA := MarkConnecting(cs, a);
            var afterB := MarkConnecting(afterA, b);
            var doneA := MarkConnected(cs, a);
            var doneB := MarkConnected(afterA, b);
            doneA[i].status == Conectado && doneB[i].status == Conectando
  {
  }

  function HasStatus(s: Status): Conexao -> bool {
    (c: Conexao) => c.status == s
  }

  /** The three status counts add up to the number of connections. */
  lemma {:induction false} StatusCountsPartition(cs: seq<Conexao>)
    ensures |Filter(cs, HasStatus(Conectado))| + |Filter(cs, HasStatus(Desconectado))| +
            |Filter(cs, HasStatus(Conectando))| == |cs|
    decreases |cs|
  {
    if cs != [] {
      StatusCountsPartition(cs[1..]);
    }
  }

  /** The connected and disconnected cards never add up to more than the
      total card, and match it exactly when nothing is reconnecting. */
  lemma ConnectedPlusDisconnected(cs: seq<Conexao>)
    ensures |Filter(cs, HasStatus(Conectado))| + |Filter(cs, HasStatus(Desconectado))| <= |cs|
    ensures |Filter(cs, HasStatus(Conectado))| + |Filter(cs, HasStatus(Desconectado))| == |cs| <==>
      forall i :: 0 <= i < |cs| ==> cs[i].status != Conectando
  {
    StatusCountsPartition(cs);
    var connecting := Filter(cs, HasStatus(Conectando));
    if connecting != [] {
      assert connecting[0] in cs && connecting[0].status == Conectando;
    }
  }

  class Page {
    var conexoes: seq<Conexao>
    var showQRModal: bool
    var conexaoSelecionada: Option<Conexao>

    constructor ()
      ensures conexoes == ConexoesIniciais && !showQRModal && conexaoSelecionada == None
    {
      conexoes := ConexoesIniciais;
      showQRModal := false;
      conexaoSelecionada := None;
    }

    method GerarQRCode(c: Conexao)
      modifies this
      ensures conexaoSelecionada == Some(c) && showQRModal && conexoes == old(conexoes)
    {
      conexaoSelecionada := Some(c);
      showQRModal := true;
    }

    /** `reconectar`, first step; the list it read is returned for the
        delayed step. */
    method Reconectar(id: string) returns (captured: seq<Conexao>)
      modifies this
      ensures captured == old(conexoes)
      ensures conexoes == MarkConnecting(old(conexoes), id)
      ensures showQRModal == old(showQRModal) && conexaoSelecionada == old(conexaoSelecionada)
    {
      captured := conexoes;
      conexoes := MarkConnecting(conexoes, id);
    }

    /** The delayed step of `reconectar`: the list becomes the captured one
        with that connection connected, whatever happened in between. */
    method ConcluirReconexao(id: string, captured: seq<Conexao>)
      modifies this
      ensures conexoes == MarkConnected(captured, id)
      ensures showQRModal == old(showQRModal) && conexaoSelecionada == old(conexaoSelecionada)
    {
      conexoes := MarkConnected(captured, id);
    }
  }
}
