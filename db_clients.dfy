/** The data toolbox's PostgreSQL client (`toolbox/data_toolbox/utils/db_clients.py`):
    the connection string built from the environment and the connection pool
    created on first use. The environment is read once, into `Settings`; the
    pool itself (`psycopg_pool.AsyncConnectionPool`) is represented by what it
    is created with. The vector-store client and the embedding request of the
    same file are not part of this model. */
module DbClients {
  import opened Wrappers
  import opened Py

  /** The five PostgreSQL settings, each `None` when its environment variable
      is unset. */
  datatype Settings = Settings(
    user: Option<string>,
    password: Option<string>,
    dbname: Option<string>,
    host: Option<string>,
    port: Option<string>)

  /** The settings under their libpq keys, in the order the code lists them. */
  function Entries(s: Settings): seq<(string, Option<string>)> {
    [("user", s.user), ("password", s.password), ("dbname", s.dbname), ("host", s.host), ("port", s.port)]
  }

  /** `f"{key}={val}"` for every entry whose value is not `None`, in order. An
      empty value is kept: only `None` is left out. */
  function Present(entries: seq<(string, Option<string>)>): (r: seq<string>)
    ensures |r| <= |entries|
    ensures r == [] <==> forall i :: 0 <= i < |entries| ==> entries[i].1.None?
    ensures (forall j :: 0 <= j < |entries| ==> ' ' !in entries[j].0 && (entries[j].1.Some? ==> ' ' !in entries[j].1.value)) ==>
      forall i :: 0 <= i < |r| ==> ' ' !in r[i]
    decreases |entries|
  {
    if entries == [] then []
    else
      var rest := Present(entries[1..]);
      assert forall j :: 1 <= j < |entries| ==> entries[j] == entries[1..][j - 1];
      match entries[0].1
      case None => rest
      case Some(v) => [entries[0].0 + "=" + v] + rest
  }

  /** The connection string: the present entries joined by single spaces. */
  function Conninfo(s: Settings): string {
    Join(" ", Present(Entries(s)))
  }

  const MIN_SIZE: nat := 5
  const MAX_SIZE: nat := 20

  /** With every setting given, every entry is present, in the order user,
      password, dbname, host, port. */
  lemma PresentAllSet(user: string, password: string, dbname: string, host: string, port: string)
    ensures Present(Entries(Settings(Some(user), Some(password), Some(dbname), Some(host), Some(port)))) ==
      ["user=" + user, "password=" + password, "dbname=" + dbname, "host=" + host, "port=" + port]
  {
    var e := Entries(Settings(Some(user), Some(password), Some(dbname), Some(host), Some(port)));
    assert "user" + "=" == "user=" && "password" + "=" == "password=" && "dbname" + "=" == "dbname=";
    assert "host" + "=" == "host=" && "port" + "=" == "port=";
    assert e[3..][1..] == e[4..] && e[2..][1..] == e[3..] && e[1..][1..] == e[2..];
    assert Present(e[4..]) == ["port=" + port];
    assert Present(e[3..]) == ["host=" + host, "port=" + port];
    assert Present(e[2..]) == ["dbname=" + dbname, "host=" + host, "port=" + port];
  }

  /** The entries of a concatenation that are kept are those kept from each
      part, in order. */
  lemma {:induction false} PresentAppend(a: seq<(string, Option<string>)>, b: seq<(string, Option<string>)>)
    ensures Present(a + b) == Present(a) + Present(b)
    decreases |a|
  {
    if a == [] {
      assert a + b == b;
    } else {
      assert (a + b)[0] == a[0];
      assert (a + b)[1..] == a[1..] + b;
      PresentAppend(a[1..], b);
    }
  }

  /** One entry is kept as `key=value` when it is set, and dropped when it is `None`. */
  lemma PresentOne(key: string, value: Option<string>)
    ensures Present([(key, value)]) == if value.Some? then [key + "=" + value.value] else []
  {
    assert [(key, value)][1..] == [];
  }

  /** With host and port unset, the connection string names user, password and
      dbname only, in that order. */
  lemma ConninfoWithoutHost(user: string, password: string, dbname: string)
    ensures Conninfo(Settings(Some(user), Some(password), Some(dbname), None, None)) ==
      "user=" + user + " password=" + password + " dbname=" + dbname
  {
    var e := Entries(Settings(Some(user), Some(password), Some(dbname), None, None));
    assert "user" + "=" == "user=" && "password" + "=" == "password=" && "dbname" + "=" == "dbname=";
    assert e[3..][1..] == e[4..] && e[2..][1..] == e[3..] && e[1..][1..] == e[2..];
    assert Present(e[4..]) == [];
    assert Present(e[3..]) == [];
    assert Present(e[2..]) == ["dbname=" + dbname];
    var pieces := ["user=" + user, "password=" + password, "dbname=" + dbname];
    assert Present(e) == pieces;
    assert pieces[1..][1..] == ["dbname=" + dbname];
    assert Join(" ", pieces[1..]) == "password=" + password + " " + "dbname=" + dbname;
  }

  /** Joining five pieces puts the separator between each two. */
  lemma JoinFive(sep: string, a: string, b: string, c: string, d: string, e: string)
    ensures Join(sep, [a, b, c, d, e]) == a + sep + b + sep + c + sep + d + sep + e
  {
    var p := [a, b, c, d, e];
    assert [d, e][1..] == [e];
    assert Join(sep, [d, e]) == d + sep + e;
    assert [c, d, e][1..] == [d, e];
    assert Join(sep, [c, d, e]) == c + sep + (d + sep + e);
    assert [b, c, d, e][1..] == [c, d, e];
    assert Join(sep, [b, c, d, e]) == b + sep + (c + sep + (d + sep + e));
    assert p[1..] == [b, c, d, e];
  }

  /** With every setting given, the connection string names them in the order
      user, password, dbname, host, port, separated by single spaces. */
  lemma ConninfoAllSet(user: string, password: string, dbname: string, host: string, port: string)
    ensures Conninfo(Settings(Some(user), Some(password), Some(dbname), Some(host), Some(port))) ==
      ("user=" + user) + " " + ("password=" + password) + " " + ("dbname=" + dbname) + " " + ("host=" + host) + " " + ("port=" + port)
  {
    PresentAllSet(user, password, dbname, host, port);
    JoinFive(" ", "user=" + user, "password=" + password, "dbname=" + dbname, "host=" + host, "port=" + port);
  }

  /** With no setting given the connection string is empty; an empty value is
      still written out, as `key=`. */
  lemma ConninfoUnsetAndEmpty()
    ensures Conninfo(Settings(None, None, None, None, None)) == ""
    ensures Conninfo(Settings(Some(""), None, None, None, None)) == "user="
  {
    var e := Entries(Settings(Some(""), None, None, None, None));
    assert Present(e[1..]) == [];
  }

  /** When no value holds a space, splitting the connection string on spaces
      gives back the `key=value` entries. */
  lemma ConninfoSplits(s: Settings)
    requires Present(Entries(s)) != []
    requires forall j :: 0 <= j < |Entries(s)| ==> (Entries(s)[j].1.Some? ==> ' ' !in Entries(s)[j].1.value)
    ensures Split(Conninfo(s), ' ') == Present(Entries(s))
  {
    SplitJoin(Present(Entries(s)), ' ');
  }

  /** A connection pool, as created: its connection string and its bounds. */
  class Pool {
    const conninfo: string
    const minSize: nat
    const maxSize: nat

    constructor (conninfo: string, minSize: nat, maxSize: nat)
      ensures this.conninfo == conninfo && this.minSize == minSize && this.maxSize == maxSize
    {
      this.conninfo := conninfo;
      this.minSize := minSize;
      this.maxSize := maxSize;
    }
  }

  /** The module's globals: the settings read at import and `_POOL`, which
      starts as `None`. */
  class Clients {
    const settings: Settings
    var pool: Pool?

    constructor (settings: Settings)
      ensures this.settings == settings && pool == null
    {
      this.settings := settings;
      pool := null;
    }

    /** `get_pool()`: the first call creates the pool from the settings, with 5
        to 20 connections; every later call returns that same pool. */
    method GetPool() returns (p: Pool)
      modifies this
      ensures pool == p
      ensures old(pool) != null ==> p == old(pool)
      ensures old(pool) == null ==> fresh(p) && p.conninfo == Conninfo(settings) && p.minSize == MIN_SIZE && p.maxSize == MAX_SIZE
    {
      if pool == null {
        var conninfo := Conninfo(settings);
        pool := new Pool(conninfo, MIN_SIZE, MAX_SIZE);
      }
      p := pool;
    }
  }
}
