/** The cashier's register panel (`Caixa/CaixaDashboard`): a local open or
    closed flag and the form fields of the opening and withdrawal dialogs.
    The amounts are kept as the text typed into the fields. */
module CaixaDashboard {

  class Panel {
    var caixaAberto: bool
    var valorAbertura: string
    var valorSangria: string
    var motivoSangria: string
    var showAbrirCaixa: bool
    var showFecharCaixa: bool
    var showSangria: bool

    constructor ()
      ensures !caixaAberto && valorAbertura == "" && valorSangria == "" && motivoSangria == ""
      ensures !showAbrirCaixa && !showFecharCaixa && !showSangria
    {
      caixaAberto := false;
      valorAbertura := "";
      valorSangria := "";
      motivoSangria := "";
      showAbrirCaixa := false;
      showFecharCaixa := false;
      showSangria := false;
    }

    method SetValorAbertura(v: string)
      modifies this
      ensures valorAbertura == v && caixaAberto == old(caixaAberto)
      ensures valorSangria == old(valorSangria) && motivoSangria == old(motivoSangria)
      ensures showAbrirCaixa == old(showAbrirCaixa) && showFecharCaixa == old(showFecharCaixa) && showSangria == old(showSangria)
    {
      valorAbertura := v;
    }

    method SetSangria(valor: string, motivo: string)
      modifies this
      ensures valorSangria == valor && motivoSangria == motivo
      ensures caixaAberto == old(caixaAberto) && valorAbertura == old(valorAbertura)
      ensures showAbrirCaixa == old(showAbrirCaixa) && showFecharCaixa == old(showFecharCaixa) && showSangria == old(showSangria)
    {
      valorSangria := valor;
      motivoSangria := motivo;
    }

    /** `handleAbrirCaixa`: an empty opening amount is refused; otherwise the
        register opens and the dialog closes, the typed amount staying in
        its field. */
    method HandleAbrirCaixa() returns (ok: bool)
      modifies this
      ensures ok <==> old(valorAbertura) != ""
      ensures caixaAberto == (ok || old(caixaAberto))
      ensures showAbrirCaixa == (!ok && old(showAbrirCaixa))
      ensures valorAbertura == old(valorAbertura)
      ensures valorSangria == old(valorSangria) && motivoSangria == old(motivoSangria)
      ensures showFecharCaixa == old(showFecharCaixa) && showSangria == old(showSangria)
    {
      if valorAbertura == "" {
        return false;
      }
      caixaAberto := true;
      showAbrirCaixa := false;
      ok := true;
    }

    /** `handleFecharCaixa`: always closes, whatever the fields hold. */
    method HandleFecharCaixa()
      modifies this
      ensures !caixaAberto && !showFecharCaixa
      ensures valorAbertura == old(valorAbertura)
      ensures valorSangria == old(valorSangria) && motivoSangria == old(motivoSangria)
      ensures showAbrirCaixa == old(showAbrirCaixa) && showSangria == old(showSangria)
    {
      caixaAberto := false;
      showFecharCaixa := false;
    }

    /** `handleSangria`: both the amount and the reason are needed; a
        withdrawal closes its dialog and clears both fields, and never
        changes whether the register is open. */
    method HandleSangria() returns (ok: bool)
      modifies this
      ensures ok <==> old(valorSangria) != "" && old(motivoSangria) != ""
      ensures !ok ==> valorSangria == old(valorSangria) && motivoSangria == old(motivoSangria) && showSangria == old(showSangria)
      ensures ok ==> valorSangria == "" && motivoSangria == "" && !showSangria
      ensures caixaAberto == old(caixaAberto) && valorAbertura == old(valorAbertura)
      ensures showAbrirCaixa == old(showAbrirCaixa) && showFecharCaixa == old(showFecharCaixa)
    {
      if valorSangria == "" || motivoSangria == "" {
        return false;
      }
      showSangria := false;
      valorSangria := "";
      motivoSangria := "";
      ok := true;
    }
  }
}
