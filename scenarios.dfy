/** Two end-to-end runs of the services, checked from their contracts alone:
    the property lifecycle across two owners, and creating a field under an
    owned and under a foreign property. */
module Scenarios {
  import opened Domain
  import opened Data
  import PropriedadeRepositories
  import TalhaoRepositories
  import PropriedadeServices
  import TalhaoServices
  import opened Messaging

  method PropertyLifecycle(ownerA: Guid, ownerB: Guid, x: Guid, t0: Timestamp)
    requires ownerA != ownerB
  {
    var db := new Database();
    var bus := new PublishEndpoint(true);
    var repository := new PropriedadeRepositories.PropriedadeRepository(db);
    var service := new PropriedadeServices.PropriedadeService(repository, bus);

    var created := service.Criar(ownerA, "Farm1", None, x, t0);
    assert created == Completed(Propriedade(x, ownerA, "Farm1", None, t0));
    assert bus.published == [PropriedadeData(x, "Farm1", ownerA)];

    // another producer cannot see it
    assert PropriedadeServices.ObterPorId(db.State(), x, ownerB) == None;

    var renamed := service.Atualizar(x, ownerA, "Farm1-renamed", None);
    assert renamed == Completed(Some(Propriedade(x, ownerA, "Farm1-renamed", None, t0)));
    // the latest update is what a later read returns
    assert PropriedadeServices.ObterPorId(db.State(), x, ownerA).value.nome == "Farm1-renamed";

    var stolen := service.Excluir(x, ownerB);
    assert !stolen;
    var deleted := service.Excluir(x, ownerA);
    assert deleted;
    assert PropriedadeServices.ObterPorId(db.State(), x, ownerA) == None;
  }

  method FieldUnderForeignProperty(ownerA: Guid, ownerB: Guid, x: Guid, f: Guid, g: Guid, t0: Timestamp)
    requires ownerA != ownerB
  {
    var db := new Database();
    var bus := new PublishEndpoint(true);
    var propriedades := new PropriedadeRepositories.PropriedadeRepository(db);
    var talhoes := new TalhaoRepositories.TalhaoRepository(db);
    var propriedadeService := new PropriedadeServices.PropriedadeService(propriedades, bus);
    var talhaoService := new TalhaoServices.TalhaoService(talhoes, propriedades, bus);

    var farm := propriedadeService.Criar(ownerA, "Farm1", None, x, t0);
    var field := talhaoService.Criar(x, ownerA, "F1", "Soja", None, Some(1050), f, t0);
    assert field == Completed(Some(Talhao(f, x, "F1", "Soja", None, Some(1050), t0)));
    assert field.value.value.propriedadeId == x;

    if g != f {
      var intruder := talhaoService.Criar(x, ownerB, "F1", "Soja", None, Some(1050), g, t0);
      assert intruder == Completed(None);
      assert g !in db.talhoes;
    }
  }
}
