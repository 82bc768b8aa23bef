/** The `Env` class: the licence and database credentials, kept as the
    fixed-key map the handlers read. */
module Environment {
  import opened Php

  /** `if ($port)` on the nullable string port: null, "" and "0" are false. */
  predicate PortGiven(port: Option<string>) {
    port.Some? && port.value != "" && port.value != "0"
  }

  /** The seven keys that are always present. */
  const BaseKeys: set<string> := {"DBUSER", "DBPASS", "DBNAME", "DBTYPE", "LICENSE", "DBPREFIX", "DBHOST"}

  /** The map the constructor builds from its arguments: every argument under
      its key, the fixed database type, and the port only when one is given. */
  function EnvData(license: string, user: string, password: string, dbName: string,
                   prefix: string, host: string, port: Option<string>): (m: map<string, string>)
    ensures m.Keys == BaseKeys + (if PortGiven(port) then {"DBPORT"} else {})
    ensures m["DBUSER"] == user && m["DBPASS"] == password && m["DBNAME"] == dbName
    ensures m["LICENSE"] == license && m["DBPREFIX"] == prefix && m["DBHOST"] == host
    ensures m["DBTYPE"] == "mysql"
    ensures "DBPORT" in m <==> PortGiven(port)
    ensures PortGiven(port) ==> m["DBPORT"] == port.value
  {
    var m := map["DBUSER" := user, "DBPASS" := password, "DBNAME" := dbName, "DBTYPE" := "mysql",
                 "LICENSE" := license, "DBPREFIX" := prefix, "DBHOST" := host];
    if PortGiven(port) then m["DBPORT" := port.value] else m
  }

  /** What every map the class can hold satisfies, whatever the arguments were. */
  predicate WellFormed(m: map<string, string>) {
    BaseKeys <= m.Keys <= BaseKeys + {"DBPORT"} && m["DBTYPE"] == "mysql" &&
    ("DBPORT" in m ==> m["DBPORT"] != "" && m["DBPORT"] != "0")
  }

  /** Every map the constructor can build is well formed. */
  lemma EnvDataWellFormed(license: string, user: string, password: string, dbName: string,
                          prefix: string, host: string, port: Option<string>)
    ensures WellFormed(EnvData(license, user, password, dbName, prefix, host, port))
  {
    var m := EnvData(license, user, password, dbName, prefix, host, port);
    assert "DBPORT" in m ==> m["DBPORT"] == port.value;
  }

  class Env {
    /** `$this->data`. */
    var data: map<string, string>

    predicate Valid()
      reads this
    {
      WellFormed(data)
    }

    /** Builds the seven entries, then adds `DBPORT` when a port is given. */
    constructor (license: string, user: string, password: string, dbName: string,
                 prefix: string, host: string, port: Option<string>)
      ensures data == EnvData(license, user, password, dbName, prefix, host, port)
      ensures Valid()
    {
      var d := map["DBUSER" := user, "DBPASS" := password, "DBNAME" := dbName, "DBTYPE" := "mysql",
                   "LICENSE" := license, "DBPREFIX" := prefix, "DBHOST" := host];
      if PortGiven(port) {
        d := d["DBPORT" := port.value];
      }
      EnvDataWellFormed(license, user, password, dbName, prefix, host, port);
      data := d;
    }

    /** `getData()`: the stored map, read without changing anything. */
    method GetData() returns (m: map<string, string>)
      requires Valid()
      ensures m == data && WellFormed(m)
    {
      m := data;
    }
  }
}
