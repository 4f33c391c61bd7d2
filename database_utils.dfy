/** The agents' PostgreSQL pool (`agents/utils/database_utils.py`): the pool is
    created when the module is imported, from the same connection string as the
    data toolbox's (`DbClients.Conninfo`, read from variables named
    `POSTGRES_DB_*` where the toolbox reads `POSTGRESQL_DB_*`), and
    `get_db_pool` hands it out. */
module DatabaseUtils {
  import opened Wrappers
  import opened Py
  import opened DbClients

  const NOT_INITIALIZED: string := "Database pool has not been initialized. Call init_db() first."

  /** The module's global `POOL`. */
  class Database {
    var pool: Pool?

    /** Importing the module: `POOL` starts as `None` and is then created,
        with 5 to 20 connections. */
    constructor (settings: Settings)
      ensures pool != null && fresh(pool)
      ensures pool.conninfo == Conninfo(settings) && pool.minSize == MIN_SIZE && pool.maxSize == MAX_SIZE
    {
      pool := null;
      new;
      if pool == null {
        var conninfo := Conninfo(settings);
        pool := new Pool(conninfo, MIN_SIZE, MAX_SIZE);
      }
    }

    /** `get_db_pool()`: a `RuntimeError` while there is no pool, the pool
        otherwise. */
    method GetDbPool() returns (r: Result<Pool, Exc>)
      ensures pool == null <==> r.Failure?
      ensures r.Failure? ==> r.error == RuntimeError(NOT_INITIALIZED)
      ensures r.Success? ==> r.value == pool
    {
      if pool == null {
        return Failure(RuntimeError(NOT_INITIALIZED));
      }
      return Success(pool);
    }
  }
}
