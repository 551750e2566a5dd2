/**
 * `getAppConfig` (agent-starter-react/lib/utils.ts): the app's configuration
 * is the built-in defaults, overridden entry by entry by a remote sandbox
 * configuration when one is configured and can be fetched.
 */
module AppConfig {
  import opened Wrappers

  /**
   * The JavaScript values a configuration holds. A JavaScript number is a
   * double; it is an integer here because the merge only compares `typeof`
   * and copies values, so no number is ever computed with.
   */
  datatype JsValue = Undefined | JsNull | JsBool(b: bool) | JsNumber(n: int) | JsString(s: string) | JsObject(id: nat)

  /** `typeof v`; note that `typeof null` is "object". */
  function TypeOf(v: JsValue): string
  {
    match v
    case Undefined => "undefined"
    case JsNull => "object"
    case JsBool(_) => "boolean"
    case JsNumber(_) => "number"
    case JsString(_) => "string"
    case JsObject(_) => "object"
  }

  /** A configuration object, own keys only. */
  type Config = map<string, JsValue>

  /** `config[key]`: undefined for a key the object does not have. */
  function Get(c: Config, key: string): JsValue
  {
    if key in c then c[key] else Undefined
  }

  /** A remote entry: its declared type and its value. */
  datatype Entry = Entry(typeTag: string, value: JsValue)

  /** `Object.entries(remoteConfig)`: a key and an entry, None for a null entry. */
  type Entries = seq<(string, Option<Entry>)>

  /** `{ sandboxId, ...APP_CONFIG_DEFAULTS }`: the defaults win over the sandbox id. */
  function Initial(sandboxId: string, defaults: Config): (c: Config)
    ensures forall k :: k in defaults ==> k in c && c[k] == defaults[k]
    ensures "sandboxId" !in defaults ==> Get(c, "sandboxId") == JsString(sandboxId)
    ensures forall k :: k !in defaults && k != "sandboxId" ==> k !in c
  {
    map["sandboxId" := JsString(sandboxId)] + defaults
  }

  /**
   * Whether an entry may overwrite `key`: the key is declared in the
   * defaults with an undefined value, or the entry's type tag, the type of
   * its value and the type of the current value all agree.
   */
  predicate Accepts(defaults: Config, current: Config, key: string, e: Entry)
  {
    (key in defaults && defaults[key] == Undefined)
    || (TypeOf(Get(current, key)) == e.typeTag && TypeOf(Get(current, key)) == TypeOf(e.value))
  }

  /** One iteration of the merge loop. */
  function Step(defaults: Config, c: Config, entry: (string, Option<Entry>)): Config
  {
    var (key, e) := entry;
    if e.None? then c
    else if Accepts(defaults, c, key, e.value) then c[key := e.value.value]
    else c
  }

  /** The configuration after the loop has run over all entries, in order. */
  function ApplyAll(defaults: Config, c: Config, es: Entries): Config
    decreases |es|
  {
    if es == [] then c else Step(defaults, ApplyAll(defaults, c, es[..|es| - 1]), es[|es| - 1])
  }

  /** The merge loop over the remote entries. */
  method MergeRemote(defaults: Config, sandboxId: string, es: Entries) returns (config: Config)
    ensures config == ApplyAll(defaults, Initial(sandboxId, defaults), es)
  {
    config := map["sandboxId" := JsString(sandboxId)] + defaults;
    var i := 0;
    while i < |es|
      invariant 0 <= i <= |es|
      invariant config == ApplyAll(defaults, Initial(sandboxId, defaults), es[..i])
    {
      assert es[..i + 1][..i] == es[..i];
      var (key, entry) := es[i];
      if entry.None? {
        i := i + 1;
        continue;
      }
      if (key in defaults && defaults[key] == Undefined)
         || (TypeOf(Get(config, key)) == entry.value.typeTag && TypeOf(Get(config, key)) == TypeOf(entry.value.value)) {
        config := config[key := entry.value.value];
      }
      i := i + 1;
    }
    assert es[..i] == es;
  }

  /** How fetching the remote configuration ended. */
  datatype Remote = RemoteThrew | RemoteConfig(entries: Entries)

  /** `SANDBOX_ID ?? headers.get('x-sandbox-id') ?? ''`. */
  function SandboxId(env: Option<string>, header: Option<string>): string
  {
    if env.Some? then env.value else if header.Some? then header.value else ""
  }

  /** The configuration `getAppConfig` returns. */
  function AppConfigFor(defaults: Config, endpoint: Option<string>, env: Option<string>,
                        header: Option<string>, remote: Remote): Config
  {
    if endpoint.None? || endpoint.value == "" then defaults
    else if SandboxId(env, header) == "" || remote.RemoteThrew? then defaults
    else ApplyAll(defaults, Initial(SandboxId(env, header), defaults), remote.entries)
  }

  /**
   * `getAppConfig`: the defaults unchanged without an endpoint, without a
   * sandbox id, or when fetching or parsing fails; otherwise the merge.
   */
  method GetAppConfig(defaults: Config, endpoint: Option<string>, env: Option<string>,
                      header: Option<string>, remote: Remote) returns (config: Config)
    ensures config == AppConfigFor(defaults, endpoint, env, header, remote)
    ensures endpoint.None? || endpoint.value == "" ==> config == defaults
    ensures SandboxId(env, header) == "" || remote.RemoteThrew? ==> config == defaults
  {
    if endpoint.Some? && endpoint.value != "" {
      var sandboxId := if env.Some? then env.value else if header.Some? then header.value else "";
      if sandboxId != "" && remote.RemoteConfig? {
        config := MergeRemote(defaults, sandboxId, remote.entries);
        return;
      }
    }
    config := defaults;
  }

  /** The keys of a JavaScript object are distinct. */
  predicate DistinctKeys(es: Entries)
  {
    forall i, j :: 0 <= i < j < |es| ==> es[i].0 != es[j].0
  }

  /** Entry `i` is a non-null entry for `key` that the initial configuration accepts. */
  predicate AcceptedAt(defaults: Config, init: Config, es: Entries, key: string, i: int)
  {
    0 <= i < |es| && es[i].0 == key && es[i].1.Some? && Accepts(defaults, init, key, es[i].1.value)
  }

  /**
   * With distinct keys the merge is pointwise: a key takes the value of its
   * entry when that entry is accepted against the initial configuration, and
   * keeps its initial value otherwise.
   */
  lemma {:induction false} MergeIsPointwise(defaults: Config, init: Config, es: Entries, key: string)
    requires DistinctKeys(es)
    ensures (exists i :: AcceptedAt(defaults, init, es, key, i)) ==>
      forall i :: AcceptedAt(defaults, init, es, key, i) ==> Get(ApplyAll(defaults, init, es), key) == es[i].1.value.value
    ensures (forall i :: !AcceptedAt(defaults, init, es, key, i)) ==>
      Get(ApplyAll(defaults, init, es), key) == Get(init, key)
    decreases |es|
  {
    if es != [] {
      var n := |es| - 1;
      var prefix := es[..n];
      assert DistinctKeys(prefix);
      MergeIsPointwise(defaults, init, prefix, key);
      var before := ApplyAll(defaults, init, prefix);
      forall i | AcceptedAt(defaults, init, prefix, key, i) ensures AcceptedAt(defaults, init, es, key, i) {
      }
      forall i | AcceptedAt(defaults, init, es, key, i) && i < n ensures AcceptedAt(defaults, init, prefix, key, i) {
      }
      if es[n].0 == key {
        // No earlier entry has this key, so the current value is the initial one.
        forall i | 0 <= i < n ensures !AcceptedAt(defaults, init, prefix, key, i) {
          assert es[i].0 != es[n].0;
        }
        assert Get(before, key) == Get(init, key);
        assert ApplyAll(defaults, init, es) == Step(defaults, before, es[n]);
        if es[n].1.Some? {
          assert Accepts(defaults, before, key, es[n].1.value) == Accepts(defaults, init, key, es[n].1.value);
          if !AcceptedAt(defaults, init, es, key, n) {
            assert Get(ApplyAll(defaults, init, es), key) == Get(init, key);
          }
        }
      } else {
        assert Get(ApplyAll(defaults, init, es), key) == Get(before, key);
      }
    }
  }

  /**
   * A key the defaults give a defined value keeps that value's type, whatever
   * the remote entries (distinct or not).
   */
  lemma {:induction false} DeclaredTypesKept(defaults: Config, sandboxId: string, es: Entries, key: string)
    requires key in defaults && defaults[key] != Undefined
    ensures TypeOf(Get(ApplyAll(defaults, Initial(sandboxId, defaults), es), key)) == TypeOf(defaults[key])
    decreases |es|
  {
    if es != [] {
      DeclaredTypesKept(defaults, sandboxId, es[..|es| - 1], key);
    }
  }

  /**
   * A key the defaults do not declare (other than `sandboxId`) stays absent
   * unless an entry for it has an undefined value tagged "undefined".
   */
  lemma {:induction false} UndeclaredKeysStayUndefined(defaults: Config, sandboxId: string, es: Entries, key: string)
    requires key !in defaults && key != "sandboxId"
    requires forall i :: 0 <= i < |es| && es[i].0 == key && es[i].1.Some? ==> es[i].1.value.value != Undefined
    ensures Get(ApplyAll(defaults, Initial(sandboxId, defaults), es), key) == Undefined
    decreases |es|
  {
    if es != [] {
      UndeclaredKeysStayUndefined(defaults, sandboxId, es[..|es| - 1], key);
    }
  }
}
