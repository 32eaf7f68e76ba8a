/** The super administrator's user list (`SuperAdmin/SuperAdminDashboard`):
    users can be switched between active and inactive, deleted after
    confirmation, and opened in an edit dialog whose save button only closes
    it. */
module SuperAdminDashboard {
  import opened Seqs

  datatype Role = AdminRole | CaixaRole

  datatype Status = Ativo | Inativo

  datatype Usuario = Usuario(id: string, nome: string, email: string, role: Role, loja: string, status: Status)

  const UsuariosIniciais: seq<Usuario> := [
    Usuario("1", "João Silva", "joao@loja1.com", AdminRole, "Loja Centro", Ativo),
    Usuario("2", "Maria Santos", "maria@loja1.com", CaixaRole, "Loja Centro", Ativo),
    Usuario("3", "Pedro Costa", "pedro@loja2.com", AdminRole, "Loja Shopping", Ativo),
    Usuario("4", "Ana Lima", "ana@loja2.com", CaixaRole, "Loja Shopping", Inativo)
  ]

  function Flip(s: Status): (r: Status)
    ensures r != s
  {
    if s == Ativo then Inativo else Ativo
  }

  /** `toggleStatus`: the users with that id switch status; nothing else moves. */
  function ToggleStatus(usuarios: seq<Usuario>, id: string): (r: seq<Usuario>)
    ensures |r| == |usuarios|
    ensures forall i :: 0 <= i < |r| && usuarios[i].id == id ==>
      r[i] == usuarios[i].(status := Flip(usuarios[i].status))
    ensures forall i :: 0 <= i < |r| && usuarios[i].id != id ==> r[i] == usuarios[i]
  {
    seq(|usuarios|, i requires 0 <= i < |usuarios| =>
      if usuarios[i].id == id then usuarios[i].(status := Flip(usuarios[i].status)) else usuarios[i])
  }

  /** Switching the same user twice restores the list. */
  lemma ToggleStatusTwice(usuarios: seq<Usuario>, id: string)
    ensures ToggleStatus(ToggleStatus(usuarios, id), id) == usuarios
  {
    var r := ToggleStatus(ToggleStatus(usuarios, id), id);
    forall i | 0 <= i < |usuarios| ensures r[i] == usuarios[i] {
      if usuarios[i].id == id {
        assert Flip(Flip(usuarios[i].status)) == usuarios[i].status;
      }
    }
  }

  function UsuarioId(u: Usuario): string {
    u.id
  }

  class Dashboard {
    var usuarios: seq<Usuario>
    var showModal: bool
    var usuarioEditando: Option<Usuario>

    constructor ()
      ensures usuarios == UsuariosIniciais && !showModal && usuarioEditando == None
    {
      usuarios := UsuariosIniciais;
      showModal := false;
      usuarioEditando := None;
    }

    method ToggleStatusOf(id: string)
      modifies this
      ensures usuarios == ToggleStatus(old(usuarios), id)
      ensures showModal == old(showModal) && usuarioEditando == old(usuarioEditando)
    {
      usuarios := ToggleStatus(usuarios, id);
    }

    /** `excluirUsuario`; `confirmed` is the answer to the confirmation dialog. */
    method ExcluirUsuario(id: string, confirmed: bool)
      modifies this
      ensures usuarios == if confirmed then ExcludeKey(old(usuarios), UsuarioId, id) else old(usuarios)
      ensures showModal == old(showModal) && usuarioEditando == old(usuarioEditando)
    {
      if confirmed {
        usuarios := ExcludeKey(usuarios, UsuarioId, id);
      }
    }

    method EditarUsuario(u: Usuario)
      modifies this
      ensures usuarioEditando == Some(u) && showModal && usuarios == old(usuarios)
    {
      usuarioEditando := Some(u);
      showModal := true;
    }

    method NovoUsuario()
      modifies this
      ensures usuarioEditando == None && showModal && usuarios == old(usuarios)
    {
      usuarioEditando := None;
      showModal := true;
    }

    /** The dialog's save button: it reports whether a user was being edited
        and closes the dialog, leaving the list untouched. */
    method SalvarModal() returns (updated: bool)
      modifies this
      ensures updated <==> old(usuarioEditando).Some?
      ensures !showModal && usuarios == old(usuarios) && usuarioEditando == old(usuarioEditando)
    {
      updated := usuarioEditando.Some?;
      showModal := false;
    }
  }
}
