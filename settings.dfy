/** The two layers of settings the screens read: the process environment (`os.environ`) and the
    `configuracoes` table. `load_env_vars` overlays the table on the environment and writes every
    stored key back into the environment; `save_env_var` writes both layers. */
module Settings {
  import Ledger

  /** The process environment. */
  class Environment {
    var vars: map<string, string>

    constructor (vars: map<string, string>)
      ensures this.vars == vars
    {
      this.vars := vars;
    }

    /** `load_env_vars`: the environment overlaid by the stored configs, which win on shared keys;
        each stored key is written into the environment one at a time. */
    method LoadEnvVars(db: Ledger.LedgerStore) returns (merged: map<string, string>)
      modifies this`vars
      ensures merged.Keys == old(vars).Keys + db.configs.Keys
      ensures forall k :: k in db.configs ==> merged[k] == db.configs[k]
      ensures forall k :: k in old(vars) && k !in db.configs ==> merged[k] == old(vars)[k]
      ensures vars == merged
    {
      var configs := db.configs;
      merged := vars + configs;
      var pending := configs.Keys;
      while pending != {}
        invariant pending <= configs.Keys
        invariant vars == old(vars) + (configs - pending)
        decreases |pending|
      {
        var k :| k in pending;
        OverlayStep(old(vars), configs, pending, k);
        vars := vars[k := configs[k]];
        pending := pending - {k};
      }
      assert configs - pending == configs;
    }

    /** `save_env_var`: persist the value, then set it in the environment. */
    method SaveEnvVar(db: Ledger.LedgerStore, key: string, value: string)
      modifies this`vars, db`configs
      ensures db.configs == old(db.configs)[key := value]
      ensures vars == old(vars)[key := value]
    {
      var _ := db.SetConfig(key, value);
      vars := vars[key := value];
    }
  }

  /** Writing one more stored key into the environment extends the overlay by that key. */
  lemma OverlayStep(base: map<string, string>, configs: map<string, string>, pending: set<string>, k: string)
    requires k in pending && pending <= configs.Keys
    ensures (base + (configs - pending))[k := configs[k]] == base + (configs - (pending - {k}))
  {
  }

  /** A value saved with `save_env_var` is what the next `load_env_vars` returns for that key,
      whatever the environment held. */
  lemma SavedValueLoads(env: map<string, string>, configs: map<string, string>, key: string, value: string)
    ensures (env[key := value] + configs[key := value])[key] == value
  {
  }
}
