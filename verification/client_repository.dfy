/**
 * PgClientRepository (internal/repository/client_repository.go): whether a
 * client exists. A failed lookup, whatever its cause, reads as "no such
 * client".
 */
module ClientRepository {
  import opened Store

  class PgClientRepository {
    const db: DbClient

    constructor(db: DbClient)
      ensures this.db == db
    {
      this.db := db;
    }

    /** True exactly when the one lookup of the client by id succeeds. */
    method IsClientInDataBase(clientId: int) returns (found: bool)
      modifies db`calls
      ensures db.calls == old(db.calls) + [FindClient(clientId)]
      ensures found <==> clientId in db.tables.clients && FindClient(clientId) !in db.faults
    {
      found := db.FindClientById(clientId);
    }
  }
}
