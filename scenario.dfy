/**
 * A client of the three services: the bill's life from creation to payment as
 * one user sees it, derived from the services' contracts alone.
 */
module Scenario {
  import opened Wrappers
  import opened ContaModel
  import opened UserModel
  import opened Store
  import opened Auth
  import opened Contas

  const JAN_1_2024 := 1704067200000
  const FEB_1_2024 := 1706745600000

  /** Registering and then logging in with the same credentials authenticates the new user. */
  method RegisterThenLogin() {
    var storage := new Storage(map[], true);
    var auth := new AuthService(storage);
    var u1 := User(None, "U1", "u1@example.com", Some("secret"), None, None, None);
    var registered := auth.Register(u1, "U1", JAN_1_2024 - 10, "t0");
    assert registered.success && auth.GetAllUsers() == [registered.user];
    assert EmailTaken(auth.GetAllUsers(), u1.email) by {
      assert auth.GetAllUsers()[0].email == u1.email;
    }
    var again := auth.Register(u1, "U2", JAN_1_2024 - 9, "t0");
    assert !again.success && again.message == EmailJaCadastrado;
    var loggedIn := auth.Login("u1@example.com", "secret", JAN_1_2024 - 5, "t1");
    assert loggedIn.success && auth.CurrentId() == Some("U1") && auth.IsAuthenticated();
    auth.Logout();
    assert !auth.IsAuthenticated() && auth.currentUser == None;
  }

  /** The scenario of a rent bill: created pending, found overdue, paid, summarised; deleting an unknown id changes nothing. */
  method RentIsOverdueThenPaid() {
    var storage := new Storage(map[], true);
    var auth := new AuthService(storage);
    auth.currentUser := Some(User(Some("U1"), "U1", "u1@example.com", Some("secret"), None, None, None));

    var ledger := new ContasService(storage, auth);
    ledger.LoadContas();
    assert ledger.contas == [];
    var rent := NovaConta("Rent", 120000, JAN_1_2024, None, "Moradia", None);
    var created := ledger.CriarConta(rent, "b1", JAN_1_2024 - 1);
    assert created.Some? && created.value.status == Pendente && ledger.contas == [created.value];
    assert created.value.id == "b1" && created.value.userId == "U1";

    assert Vencida(ledger.contas[0], FEB_1_2024);
    ledger.VerificarContasAtrasadas(FEB_1_2024);
    assert |ledger.contas| == 1 && ledger.contas[0].status == Atrasada;
    assert ledger.contas[0].id == "b1" && ledger.contas[0].userId == "U1" && ledger.contas[0].valor == 120000;

    assert IndiceDe(ledger.contas, "b1") == Some(0);
    var paid := ledger.PagarConta("b1", FEB_1_2024);
    assert paid && ledger.contas[0].status == Paga && ledger.contas[0].dataPagamento == Some(FEB_1_2024);
    assert ledger.contas[0].userId == "U1" && ledger.contas[0].valor == 120000;

    SummaryOfOnePaidBill(ledger);
  }

  /** A user whose only bill is paid sees it in full under `pagas`. */
  method SummaryOfOnePaidBill(ledger: ContasService)
    requires |ledger.contas| == 1 && ledger.auth.CurrentId() == Some(ledger.contas[0].userId)
    requires ledger.contas[0].status == Paga && ledger.contas[0].valor == 120000
    requires ledger.storage.writable
    modifies ledger, ledger.storage`data
  {
    var c := ledger.contas[0];
    assert ledger.contas == [c];
    var mine := ledger.GetContasDoUsuario(None);
    assert mine == [c];
    var resumo := ledger.GetResumoFinanceiro();
    assert resumo == Resumo(120000, 120000, 0, 0) by {
      assert mine[1..] == [];
      assert SomaStatus(mine, Paga) == 120000;
      assert SomaStatus(mine, Pendente) == 0 && SomaStatus(mine, Atrasada) == 0;
    }

    var deleted := ledger.DeletarConta(c.id + "-unknown");
    assert deleted && ledger.contas == [c];
  }
}
