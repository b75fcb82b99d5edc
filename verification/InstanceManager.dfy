/**
 The instance manager (internal/instance/manager.go and internal/store/instances.go) as a
 transaction over three places: the row, the configuration file and the systemd unit.

 Every step that can fail asks an oracle.  A row update and `atomicWrite` are all-or-nothing.
 `updated_at` is not modelled: a rolled-back row differs from the old one in it.
 */
module InstanceManager {
  import opened Text
  import opened InstanceConfig

  // ---------- secrets ----------

  // AES-GCM ciphertext: what a seal holds can be read back; foreign text cannot be read.
  datatype Secret = NoSecret | Sealed(nonce: int, plain: string) | Unreadable

  type Row = Instance<Secret>

  function Encrypt(plain: string, nonce: int, randomOk: bool): Option<Secret> {
    if plain == "" then Some(NoSecret) else if randomOk then Some(Sealed(nonce, plain)) else None
  }

  function Decrypt(secret: Secret): Option<string> {
    match secret
    case NoSecret => Some("")
    case Sealed(_, plain) => Some(plain)
    case Unreadable => None
  }

  function WithSecrets<S, T>(i: Instance<S>, token: T, proxy: T): Instance<T> {
    Instance(i.id, i.clientID, i.name, i.provider, token, i.transport, i.roomID, i.roomChannel, i.dns, proxy,
             i.options, i.liveness, i.maxSessionDuration, i.traffic, i.debug, i.omitClientAuthToken,
             i.resetPolicy, i.quotaBytes, i.expiresAt)
  }

  /** decryptSecrets */
  function PlainOf(row: Row): Option<Plain> {
    var token, proxy := Decrypt(row.authToken), Decrypt(row.outboundProxy);
    if token.None? || proxy.None? then None else Some(WithSecrets(row, token.value, proxy.value))
  }

  // ---------- the persistent state ----------

  // A file that was restored from unreadable contents is empty; any other text is no configuration.
  datatype File = EmptyFile | Config(yaml: Yaml) | Foreign(text: string)

  datatype World = World(rows: map<int, Row>, files: map<int, File>, keys: map<int, string>)

  // The UNIQUE columns of the table.
  predicate Unique(rows: map<int, Row>) {
    && (forall id :: id in rows ==> rows[id].id == id)
    && (forall a, b :: a in rows && b in rows && a != b ==>
         rows[a].name != rows[b].name && rows[a].clientID != rows[b].clientID)
  }

  predicate Fits(rows: map<int, Row>, row: Row) {
    forall id :: id in rows && id != row.id ==> rows[id].name != row.name && rows[id].clientID != row.clientID
  }

  /** The row decrypts to a record that is defaulted and valid: it can be rendered at any time. */
  ghost predicate Renderable(checks: Checks, row: Row) {
    PlainOf(row).Some? && Defaulted(PlainOf(row).value) && Validate(checks, PlainOf(row).value)
  }

  /** The file is the rendering of the row, for the data path it was written with. */
  ghost predicate Agrees(checks: Checks, row: Row, file: File) {
    && file.Config? && PlainOf(row).Some?
    && RenderYaml(checks, PlainOf(row).value, WordAt(file.yaml, DataPath)) == Some(file.yaml)
  }

  ghost predicate Consistent(checks: Checks, w: World) {
    && Unique(w.rows)
    && w.files.Keys == w.rows.Keys == w.keys.Keys
    && (forall id :: id in w.rows ==> Renderable(checks, w.rows[id]) && Agrees(checks, w.rows[id], w.files[id]))
  }

  // ---------- preparing an update ----------

  datatype Faults = Faults(
    nonce: int, random: bool, readOld: bool, readKey: bool, writeFile: bool, updateRow: bool,
    status: bool, restart: bool, active: bool, undoRow: bool, undoFile: bool, undoRestart: bool,
    decorated: bool)   // whether the closing read of the unit's state works

  function NewSecret(given: string, clear: bool, prior: Secret, f: Faults): Option<Secret> {
    if given == "" && !clear then Some(prior) else if clear then Some(NoSecret) else Encrypt(given, f.nonce, f.random)
  }

  /** The part of Update before the first write: the new row, or None for one of its errors. */
  function Prepare(checks: Checks, rows: map<int, Row>, item: Plain, clearAuth: bool, clearProxy: bool,
      f: Faults): Option<Row> {
    if item.id !in rows then None
    else
      var prior := rows[item.id];
      var token := NewSecret(item.authToken, clearAuth, prior.authToken, f);
      var proxy := NewSecret(item.outboundProxy, clearProxy, prior.outboundProxy, f);
      if token.None? || proxy.None? then None
      else
        var row := WithSecrets(ApplyDefaults(item).(clientID := prior.clientID), token.value, proxy.value);
        if PlainOf(row).None? || !Validate(checks, PlainOf(row).value) then None else Some(row)
  }

  lemma DefaultedWithSecrets<S, T(!new)>(item: Instance<S>, clientID: string, token: T, proxy: T)
    ensures Defaulted(WithSecrets(ApplyDefaults(item).(clientID := clientID), token, proxy))
  {
    DefaultsIdempotent<S, T>(item);
    assert SamePublic(ApplyDefaults(item), WithSecrets(ApplyDefaults(item).(clientID := clientID), token, proxy));
  }

  // What becomes of a secret: cleared, replaced by the one given, or kept as it is stored.
  predicate SecretFollows(given: string, clear: bool, prior: Secret, now: Secret) {
    && (clear ==> Decrypt(now) == Some(""))
    && (!clear && given != "" ==> Decrypt(now) == Some(given))
    && (!clear && given == "" ==> now == prior)
  }

  /** What a request asks of the row it changes: its public fields, the identity kept, and both secrets. */
  predicate Follows(item: Plain, clearAuth: bool, clearProxy: bool, prior: Row, row: Row) {
    && row.id == item.id && row.clientID == prior.clientID && Granted(item, row)
    && SecretFollows(item.authToken, clearAuth, prior.authToken, row.authToken)
    && SecretFollows(item.outboundProxy, clearProxy, prior.outboundProxy, row.outboundProxy)
  }

  /** Whatever the request holds, a prepared row is renderable and is what the request asks for. */
  lemma PreparedRow(checks: Checks, rows: map<int, Row>, item: Plain, clearAuth: bool, clearProxy: bool, f: Faults)
    requires Prepare(checks, rows, item, clearAuth, clearProxy, f).Some?
    ensures var row := Prepare(checks, rows, item, clearAuth, clearProxy, f).value;
            && Renderable(checks, row) && item.id in rows
            && Follows(item, clearAuth, clearProxy, rows[item.id], row)
  {
    var row := Prepare(checks, rows, item, clearAuth, clearProxy, f).value;
    var plain := PlainOf(row).value;
    DefaultedWithSecrets<string, string>(item, rows[item.id].clientID, plain.authToken, plain.outboundProxy);
    DefaultsGrant(item);
    GrantedCarries(item, ApplyDefaults(item), row);
    hide Validate, Granted, ApplyDefaults;
  }

  lemma GrantedCarries<R, S, T>(item: Instance<R>, d: Instance<S>, row: Instance<T>)
    requires Granted(item, d) && SamePublic(d.(id := row.id), row)
    ensures Granted(item, row)
  {
    hide NormalizeRoomID;
  }

  // The text of a secret after the request, when it can be read.
  function SecretAfter(given: string, clear: bool, prior: Secret): Option<string> {
    if clear then Some("") else if given != "" then Some(given) else Decrypt(prior)
  }

  /**
   A row is prepared exactly when the instance is known, the secrets kept can be read, the secrets
   given can be sealed, and the record the request asks for is valid.
   */
  lemma PreparedExactly(checks: Checks, rows: map<int, Row>, item: Plain, clearAuth: bool, clearProxy: bool, f: Faults,
      wanted: Plain)
    requires item.id in rows ==>
               && wanted.id == item.id && wanted.clientID == rows[item.id].clientID && Granted(item, wanted)
               && SecretAfter(item.authToken, clearAuth, rows[item.id].authToken) in {None, Some(wanted.authToken)}
               && SecretAfter(item.outboundProxy, clearProxy, rows[item.id].outboundProxy)
                  in {None, Some(wanted.outboundProxy)}
    ensures Prepare(checks, rows, item, clearAuth, clearProxy, f).Some? <==>
              && item.id in rows
              && SecretAfter(item.authToken, clearAuth, rows[item.id].authToken).Some?
              && SecretAfter(item.outboundProxy, clearProxy, rows[item.id].outboundProxy).Some?
              && ((item.authToken != "" && !clearAuth) || (item.outboundProxy != "" && !clearProxy) ==> f.random)
              && Validate(checks, wanted)
  {
    hide Validate, Granted, ApplyDefaults, NewSecret, SecretAfter, WithSecrets, PlainOf;
    if item.id in rows {
      var prior := rows[item.id];
      DefaultsGrant(item);
      GrantedOnce(item, ApplyDefaults(item), wanted);
      SecretNamed(item.authToken, clearAuth, prior.authToken, f);
      SecretNamed(item.outboundProxy, clearProxy, prior.outboundProxy, f);
      var token := NewSecret(item.authToken, clearAuth, prior.authToken, f);
      var proxy := NewSecret(item.outboundProxy, clearProxy, prior.outboundProxy, f);
      if token.Some? && proxy.Some? {
        SecretsPlain(ApplyDefaults(item).(clientID := prior.clientID), token.value, proxy.value, wanted);
      }
    }
  }

  lemma SecretNamed(given: string, clear: bool, prior: Secret, f: Faults)
    ensures var s := NewSecret(given, clear, prior, f);
            && (s.Some? <==> (given != "" && !clear ==> f.random))
            && (s.Some? ==> Decrypt(s.value) == SecretAfter(given, clear, prior))
  {}

  lemma SecretsPlain(d: Plain, token: Secret, proxy: Secret, wanted: Plain)
    requires SamePublic(d, wanted) && d.clientID == wanted.clientID
    requires Decrypt(token) in {None, Some(wanted.authToken)} && Decrypt(proxy) in {None, Some(wanted.outboundProxy)}
    ensures PlainOf(WithSecrets(d, token, proxy))
         == if Decrypt(token).Some? && Decrypt(proxy).Some? then Some(wanted) else None
  {}

  // A request leaves no choice: two records that hold what it asks for agree on every public field.
  lemma GrantedOnce(item: Plain, a: Plain, b: Plain)
    requires Granted(item, a) && Granted(item, b) && a.id == b.id
    ensures SamePublic(a, b)
  {
    hide NormalizeRoomID;
  }

  lemma PreparedKnown(checks: Checks, rows: map<int, Row>, item: Plain, clearAuth: bool, clearProxy: bool, f: Faults)
    requires Prepare(checks, rows, item, clearAuth, clearProxy, f).Some?
    ensures item.id in rows
  {}

  lemma PreparedIds(checks: Checks, rows: map<int, Row>, item: Plain, clearAuth: bool, clearProxy: bool, f: Faults)
    requires Prepare(checks, rows, item, clearAuth, clearProxy, f).Some?
    ensures Prepare(checks, rows, item, clearAuth, clearProxy, f).value.id == item.id
  {}

  function TrimBreaks(s: string): string {
    if s != "" && (s[|s| - 1] == '\n' || s[|s| - 1] == '\r') then TrimBreaks(s[..|s| - 1]) else s
  }

  /** readKey */
  function ReadKey(keys: map<int, string>, id: int, readable: bool): Option<string> {
    if id !in keys || !readable || |TrimBreaks(keys[id])| != 64 then None else Some(TrimBreaks(keys[id]))
  }

  lemma {:induction false} TrimBreaksKeeps(s: string)
    ensures TrimBreaks(s) <= s && forall i :: |TrimBreaks(s)| <= i < |s| ==> s[i] == '\n' || s[i] == '\r'
    ensures TrimBreaks(s) != "" ==> TrimBreaks(s)[|TrimBreaks(s)| - 1] !in {'\n', '\r'}
  {
    if s != "" && (s[|s| - 1] == '\n' || s[|s| - 1] == '\r') {
      TrimBreaksKeeps(s[..|s| - 1]);
    }
  }

  /** The key that is read is the one written; whatever is read has 64 characters and stands in the file as it is. */
  lemma KeyReadBack(keys: map<int, string>, id: int, key: string)
    requires |key| == 64 && key[63] !in {'\n', '\r'}
    ensures ReadKey(keys[id := key + "\n"], id, true) == Some(key)
    ensures var read := ReadKey(keys, id, true);
            read.Some? ==> id in keys && |read.value| == 64 && read.value <= keys[id]
                           && forall i :: 64 <= i < |keys[id]| ==> keys[id][i] == '\n' || keys[id][i] == '\r'
  {
    assert (key + "\n")[..64] == key;
    assert TrimBreaks(key) == key && TrimBreaks(key + "\n") == TrimBreaks((key + "\n")[..64]);
    if id in keys {
      TrimBreaksKeeps(keys[id]);
    }
  }

  /** The configuration file of a row; a row that cannot be rendered has none. */
  function Rendered(checks: Checks, row: Row, dataPath: string): File {
    if PlainOf(row).None? then EmptyFile
    else
      match RenderYaml(checks, PlainOf(row).value, dataPath)
      case None => EmptyFile
      case Some(yaml) => Config(yaml)
  }

  // The prior row always fits back, because it was unique before.
  lemma FitsBack(rows: map<int, Row>, row: Row)
    requires Unique(rows) && row.id in rows
    ensures Fits(rows[row.id := row], rows[row.id])
    ensures rows[row.id := row][row.id := rows[row.id]] == rows
  {}

  // ---------- what keeps rows and files in agreement ----------

  /** The file names the data path, and what a runtime reads out of it are the settings of the row. */
  ghost predicate Carries(checks: Checks, row: Row, file: File, dataPath: string) {
    && file.Config? && PlainOf(row).Some? && Says(checks, file.yaml, PlainOf(row).value)
    && WordAt(file.yaml, DataPath) == dataPath
  }

  lemma RenderedAgrees(checks: Checks, row: Row, dataPath: string)
    requires Renderable(checks, row)
    ensures Agrees(checks, row, Rendered(checks, row, dataPath))
  {
    RenderedSays(checks, PlainOf(row).value, dataPath);
    hide Validate, Says, WordAt, Defaulted;
  }

  lemma RenderedCarries(checks: Checks, row: Row, dataPath: string)
    requires Renderable(checks, row)
    ensures Carries(checks, row, Rendered(checks, row, dataPath), dataPath)
  {
    RenderedSays(checks, PlainOf(row).value, dataPath);
    hide Validate, Says, WordAt, Defaulted;
  }

  lemma AgreesSays(checks: Checks, row: Row, file: File)
    requires Agrees(checks, row, file)
    ensures file.Config? && PlainOf(row).Some? && Says(checks, file.yaml, PlainOf(row).value)
  {
    RenderedSays(checks, PlainOf(row).value, WordAt(file.yaml, DataPath));
  }

  /** In every consistent state, what is read out of an instance's file is what its row holds. */
  lemma FilesSay(checks: Checks, w: World)
    requires Consistent(checks, w)
    ensures forall id :: id in w.rows ==>
              && id in w.files && w.files[id].Config? && PlainOf(w.rows[id]).Some?
              && Says(checks, w.files[id].yaml, PlainOf(w.rows[id]).value)
  {
    forall id | id in w.rows
      ensures id in w.files && w.files[id].Config? && PlainOf(w.rows[id]).Some?
      ensures Says(checks, w.files[id].yaml, PlainOf(w.rows[id]).value)
    {
      AgreesSays(checks, w.rows[id], w.files[id]);
    }
    hide Agrees, Renderable, Says;
  }

  lemma ConsistentShape(checks: Checks, w: World)
    requires Consistent(checks, w)
    ensures Unique(w.rows) && w.files.Keys == w.rows.Keys == w.keys.Keys
  {
    hide Renderable, Agrees;
  }

  lemma ConsistentIds(checks: Checks, w: World)
    requires Consistent(checks, w)
    ensures forall id :: id in w.rows ==> w.rows[id].id == id
  {
    hide Renderable, Agrees;
  }

  lemma ConsistentRow(checks: Checks, w: World, id: int)
    requires Consistent(checks, w) && id in w.rows
    ensures Renderable(checks, w.rows[id]) && w.rows[id].id == id && Agrees(checks, w.rows[id], w.files[id])
  {
    hide Renderable, Agrees;
  }

  lemma UniqueKeeps(rows: map<int, Row>, row: Row)
    requires Unique(rows) && Fits(rows, row)
    ensures Unique(rows[row.id := row])
  {}

  /** A renderable row committed together with its rendering. */
  lemma CommitKeeps(checks: Checks, w: World, row: Row, dataPath: string)
    requires Consistent(checks, w) && row.id in w.rows && Renderable(checks, row) && Fits(w.rows, row)
    ensures Consistent(checks, World(w.rows[row.id := row], w.files[row.id := Rendered(checks, row, dataPath)], w.keys))
  {
    hide Renderable, Agrees, Rendered, Unique, Fits;
    RenderedAgrees(checks, row, dataPath);
    UniqueKeeps(w.rows, row);
  }

  lemma InsertKeeps(checks: Checks, w: World, row: Row, dataPath: string, key: string)
    requires Consistent(checks, w) && row.id !in w.rows && Renderable(checks, row) && Fits(w.rows, row)
    ensures Consistent(checks, World(w.rows[row.id := row], w.files[row.id := Rendered(checks, row, dataPath)],
            w.keys[row.id := key]))
  {
    hide Renderable, Agrees, Rendered, Unique, Fits;
    RenderedAgrees(checks, row, dataPath);
    UniqueKeeps(w.rows, row);
  }

  /** The client identity is not in the file, so rotating it cannot make the two disagree. */
  lemma IdentityKeeps(checks: Checks, w: World, id: int, clientID: string)
    requires Consistent(checks, w) && id in w.rows && Fits(w.rows, w.rows[id].(clientID := clientID))
    ensures Consistent(checks, w.(rows := w.rows[id := w.rows[id].(clientID := clientID)]))
  {
    hide Renderable, Agrees;
    assert Renderable(checks, w.rows[id]) && Agrees(checks, w.rows[id], w.files[id]);
    RenamedAgrees(checks, w.rows[id], clientID, w.files[id]);
    UniqueKeeps(w.rows, w.rows[id].(clientID := clientID));
  }

  lemma RenamedAgrees(checks: Checks, row: Row, clientID: string, file: File)
    requires Renderable(checks, row) && Agrees(checks, row, file)
    ensures Renderable(checks, row.(clientID := clientID)) && Agrees(checks, row.(clientID := clientID), file)
  {
    assert PlainOf(row.(clientID := clientID)) == Some(PlainOf(row).value.(clientID := clientID));
  }

  lemma RemoveKeeps(checks: Checks, w: World, id: int)
    requires Consistent(checks, w)
    ensures Consistent(checks, World(w.rows - {id}, w.files - {id}, w.keys - {id}))
  {
    hide Renderable, Agrees;
  }

  /** The renderings of some rows. */
  function RenderMap(checks: Checks, rows: map<int, Row>, ids: set<int>, dataPath: string): map<int, File> {
    map id | id in ids && id in rows :: Rendered(checks, rows[id], dataPath)
  }

  lemma RenderedIsConfig(checks: Checks, rows: map<int, Row>, dataPath: string)
    requires forall id :: id in rows ==> Renderable(checks, rows[id])
    ensures forall id :: id in rows ==>
              Rendered(checks, rows[id], dataPath).Config?
                  && Agrees(checks, rows[id], Rendered(checks, rows[id], dataPath))
  {
    forall id | id in rows
      ensures Rendered(checks, rows[id], dataPath).Config?
              && Agrees(checks, rows[id], Rendered(checks, rows[id], dataPath))
    {
      RenderedAgrees(checks, rows[id], dataPath);
    }
    hide Renderable, Rendered;
  }

  /** Rewriting all files with the current data path keeps the agreement. */
  lemma RewriteKeeps(checks: Checks, w: World, ids: set<int>, dataPath: string)
    requires Consistent(checks, w)
    ensures Consistent(checks, w.(files := w.files + RenderMap(checks, w.rows, ids, dataPath)))
  {
    hide Renderable, Rendered, Agrees;
    assert forall id :: id in w.rows ==> Renderable(checks, w.rows[id]);
    RenderedIsConfig(checks, w.rows, dataPath);
  }

  ghost predicate AllRender(checks: Checks, rows: map<int, Row>, dataPath: string) {
    forall id :: id in rows ==> Rendered(checks, rows[id], dataPath).Config?
  }

  // The old contents that Reconcile can put back: of files that are there, readable and not empty.
  function Backups(files: map<int, File>, ids: set<int>, unreadable: set<int>): map<int, File> {
    map id | id in ids && id in files && id !in unreadable && files[id] != EmptyFile :: files[id]
  }

  function Only(m: map<int, File>, ids: set<int>): map<int, File> {
    map id | id in ids && id in m :: m[id]
  }

  // The instances written before the first write that fails.
  function Passed(order: seq<int>, unwritable: set<int>): set<int> {
    if order == [] || order[0] in unwritable then {} else {order[0]} + Passed(order[1..], unwritable)
  }

  // Those of them whose old contents do not come back.
  function Left(files: map<int, File>, passed: set<int>, unreadable: set<int>, lost: set<int>): set<int> {
    set id | id in passed && (id !in files || id in unreadable || files[id] == EmptyFile || id in lost)
  }

  lemma MapsNone(checks: Checks, rows: map<int, Row>, files: map<int, File>, unreadable: set<int>, dataPath: string)
    ensures RenderMap(checks, rows, {}, dataPath) == map[] && Backups(files, {}, unreadable) == map[]
  {
    hide Rendered;
  }

  lemma MapsNext(checks: Checks, rows: map<int, Row>, files: map<int, File>, seen: set<int>, id: int,
      unreadable: set<int>, dataPath: string)
    requires id in rows
    ensures RenderMap(checks, rows, seen + {id}, dataPath)
            == RenderMap(checks, rows, seen, dataPath)[id := Rendered(checks, rows[id], dataPath)]
    ensures Backups(files, seen + {id}, unreadable)
         == if id in files && id !in unreadable && files[id] != EmptyFile
             then Backups(files, seen, unreadable)[id := files[id]]
            else Backups(files, seen, unreadable)
  {
    hide Rendered;
  }

  lemma OnlyNone(m: map<int, File>, files: map<int, File>)
    ensures files + Only(m, {}) == files
  {
    assert Only(m, {}) == map[];
  }

  lemma OnlyNext(files: map<int, File>, m: map<int, File>, seen: set<int>, id: int)
    requires id in m
    ensures (files + Only(m, seen))[id := m[id]] == files + Only(m, seen + {id})
  {
    assert Only(m, seen + {id}) == Only(m, seen)[id := m[id]];
  }

  lemma {:induction false} PassedAt(order: seq<int>, unwritable: set<int>, n: nat)
    requires n < |order| && order[n] in unwritable && unwritable !! Members(order[..n])
    ensures Passed(order, unwritable) == Members(order[..n])
  {
    if n > 0 {
      assert order[0] in order[..n];
      assert order[..n] == [order[0]] + order[1..][..n - 1];
      assert Members(order[..n]) == {order[0]} + Members(order[1..][..n - 1]);
      PassedAt(order[1..], unwritable, n - 1);
    }
  }

  lemma Restored(files: map<int, File>, newConfigs: map<int, File>, backups: map<int, File>, written: set<int>,
      lost: set<int>)
    requires forall id :: id in backups ==> id in files && backups[id] == files[id]
    ensures files + Only(newConfigs, written) + Only(backups, backups.Keys - lost)
            == files + Only(newConfigs, written - (backups.Keys - lost))
  {
    var restored := files + Only(newConfigs, written) + Only(backups, backups.Keys - lost);
    var kept := files + Only(newConfigs, written - (backups.Keys - lost));
    forall id ensures id in restored <==> id in kept {
      assert id in backups.Keys - lost ==> id in files;
    }
    assert forall id :: id in kept ==> restored[id] == kept[id];
  }

  lemma {:induction false} KeptLeft(checks: Checks, rows: map<int, Row>, files: map<int, File>, order: seq<int>,
      unreadable: set<int>,
      unwritable: set<int>,
                 lost: set<int>, dataPath: string)
    requires Lists(order, rows.Keys)
    ensures var passed := Passed(order, unwritable);
            Only(RenderMap(checks, rows, rows.Keys, dataPath),
                passed - (Backups(files, rows.Keys, unreadable).Keys - lost))
            == RenderMap(checks, rows, Left(files, passed, unreadable, lost), dataPath)
  {
    hide Rendered;
    PassedListed(order, unwritable);
  }

  lemma {:induction false} PassedListed(order: seq<int>, unwritable: set<int>)
    ensures forall id :: id in Passed(order, unwritable) ==> id in order
  {
    if order != [] {
      PassedListed(order[1..], unwritable);
    }
  }

  /**
   A reconciliation repairs: whatever the files were, once all are written every row agrees
   with its file; and rows the manager stored are always rendered.
   */
  lemma ReconcileRepairs(checks: Checks, rows: map<int, Row>, files: map<int, File>, dataPath: string)
    requires forall id :: id in rows ==> Renderable(checks, rows[id])
    ensures AllRender(checks, rows, dataPath)
    ensures var after := files + RenderMap(checks, rows, rows.Keys, dataPath);
            forall id :: id in rows ==>
              id in after && Agrees(checks, rows[id], after[id]) && Carries(checks, rows[id], after[id], dataPath)
  {
    hide Renderable, Rendered, Agrees, Carries;
    RenderedIsConfig(checks, rows, dataPath);
    forall id | id in rows ensures Carries(checks, rows[id], Rendered(checks, rows[id], dataPath), dataPath) {
      RenderedCarries(checks, rows[id], dataPath);
    }
  }

  /** Unless files of no instance lie around, the whole state is consistent then. */
  lemma ReconcileConsistent(checks: Checks, w: World, dataPath: string)
    requires Unique(w.rows) && w.files.Keys <= w.rows.Keys == w.keys.Keys
    requires forall id :: id in w.rows ==> Renderable(checks, w.rows[id])
    ensures Consistent(checks, w.(files := w.files + RenderMap(checks, w.rows, w.rows.Keys, dataPath)))
  {
    hide Renderable, Agrees, Unique, RenderMap, Carries;
    RenderMapKeys(checks, w.rows, dataPath);
    ReconcileRepairs(checks, w.rows, w.files, dataPath);
  }

  lemma RenderMapKeys(checks: Checks, rows: map<int, Row>, dataPath: string)
    ensures RenderMap(checks, rows, rows.Keys, dataPath).Keys == rows.Keys
  {}

  lemma ConsistentId(checks: Checks, w: World, id: int)
    requires Consistent(checks, w) && id in w.rows
    ensures w.rows[id].id == id && id in w.files
  {}

  // A new identity keeps the agreement and can be taken back.
  lemma RotationBack(checks: Checks, w: World, id: int, clientID: string)
    requires Consistent(checks, w) && id in w.rows
    ensures var row := w.rows[id].(clientID := clientID);
            Fits(w.rows, row) ==>
              && Consistent(checks, w.(rows := w.rows[id := row]))
              && Fits(w.rows[id := row], w.rows[id]) && w.rows[id := row][id := w.rows[id]] == w.rows
  {
    ConsistentId(checks, w, id);
    if Fits(w.rows, w.rows[id].(clientID := clientID)) {
      assert Unique(w.rows);
      hide Consistent, Unique;
      FitsBack(w.rows, w.rows[id].(clientID := clientID));
      hide Fits;
      IdentityKeeps(checks, w, id, clientID);
    }
  }

  lemma InsertUndone<T>(m: map<int, T>, id: int, v: T)
    requires id !in m
    ensures m[id := v] - {id} == m
  {}

  // ---------- whole runs ----------

  // What one operation of the manager leaves behind: nothing, or one of these as a whole.
  datatype Change =
    | Nothing
    | Commit(row: Row, dataPath: string)
    | Insertion(row: Row, dataPath: string, key: string)
    | Identity(id: int, clientID: string)
    | NewKey(id: int, key: string)
    | Removal(id: int)
    | Rewrite(ids: set<int>, dataPath: string)

  ghost predicate Allowed(checks: Checks, w: World, c: Change) {
    match c
    case Nothing => true
    case Commit(row, _) => row.id in w.rows && Renderable(checks, row) && Fits(w.rows, row)
    case Insertion(row, _, _) => row.id !in w.rows && Renderable(checks, row) && Fits(w.rows, row)
    case Identity(id, clientID) => id in w.rows && Fits(w.rows, w.rows[id].(clientID := clientID))
    case NewKey(id, _) => id in w.keys
    case Removal(_) => true
    case Rewrite(_, _) => true
  }

  function Result(checks: Checks, w: World, c: Change): World {
    match c
    case Nothing => w
    case Commit(row, dataPath) => w.(rows := w.rows[row.id := row],
        files := w.files[row.id := Rendered(checks, row, dataPath)])
    case Insertion(row, dataPath, key) =>
      World(w.rows[row.id := row], w.files[row.id := Rendered(checks, row, dataPath)], w.keys[row.id := key])
    case Identity(id, clientID) => if id in w.rows then w.(rows := w.rows[id := w.rows[id].(clientID := clientID)])
        else w
    case NewKey(id, key) => w.(keys := w.keys[id := key])
    case Removal(id) => World(w.rows - {id}, w.files - {id}, w.keys - {id})
    case Rewrite(ids, dataPath) => w.(files := w.files + RenderMap(checks, w.rows, ids, dataPath))
  }

  ghost predicate AllowedRun(checks: Checks, w: World, run: seq<Change>)
    decreases |run|
  {
    run != [] ==> Allowed(checks, w, run[0]) && AllowedRun(checks, Result(checks, w, run[0]), run[1..])
  }

  function RunResult(checks: Checks, w: World, run: seq<Change>): World
    decreases |run|
  {
    if run == [] then w else RunResult(checks, Result(checks, w, run[0]), run[1..])
  }

  lemma ChangeKeeps(checks: Checks, w: World, c: Change)
    requires Consistent(checks, w) && Allowed(checks, w, c)
    ensures Consistent(checks, Result(checks, w, c))
  {
    hide Renderable, Agrees, Rendered, Fits;
    match c
    case Nothing =>
    case Commit(row, dataPath) => CommitKeeps(checks, w, row, dataPath);
    case Insertion(row, dataPath, key) => InsertKeeps(checks, w, row, dataPath, key);
    case Identity(id, clientID) => IdentityKeeps(checks, w, id, clientID);
    case NewKey(id, key) =>
    case Removal(id) => RemoveKeeps(checks, w, id);
    case Rewrite(ids, dataPath) => RewriteKeeps(checks, w, ids, dataPath);
  }

  /** After any run, every row is renderable and every file is the rendering of its row. */
  lemma {:induction false} RunKeeps(checks: Checks, w: World, run: seq<Change>)
    requires Consistent(checks, w) && AllowedRun(checks, w, run)
    ensures Consistent(checks, RunResult(checks, w, run))
    decreases |run|
  {
    hide Consistent, Allowed, Result;
    if run != [] {
      ChangeKeeps(checks, w, run[0]);
      RunKeeps(checks, Result(checks, w, run[0]), run[1..]);
    }
  }

  /** The second state comes from the first by whole changes. */
  ghost predicate Steps(checks: Checks, w: World, v: World) {
    exists run: seq<Change> :: AllowedRun(checks, w, run) && RunResult(checks, w, run) == v
  }

  lemma StepsNone(checks: Checks, w: World)
    ensures Steps(checks, w, w)
  {
    assert AllowedRun(checks, w, []) && RunResult(checks, w, []) == w;
  }

  lemma StepsOne(checks: Checks, w: World, c: Change)
    requires Allowed(checks, w, c)
    ensures Steps(checks, w, Result(checks, w, c))
  {
    hide Allowed, Result;
    assert [c][1..] == [];
    assert AllowedRun(checks, Result(checks, w, c), []);
    assert AllowedRun(checks, w, [c]) && RunResult(checks, w, [c]) == Result(checks, w, c);
  }

  lemma {:induction false} RunsConcat(checks: Checks, w: World, a: seq<Change>, b: seq<Change>)
    requires AllowedRun(checks, w, a) && AllowedRun(checks, RunResult(checks, w, a), b)
    ensures AllowedRun(checks, w, a + b) && RunResult(checks, w, a + b) == RunResult(checks, RunResult(checks, w, a), b)
    decreases |a|
  {
    hide Allowed, Result;
    if a == [] {
      assert a + b == b;
    } else {
      assert (a + b)[1..] == a[1..] + b && (a + b)[0] == a[0];
      RunsConcat(checks, Result(checks, w, a[0]), a[1..], b);
    }
  }

  lemma StepsOn(checks: Checks, u: World, v: World, w: World)
    requires Steps(checks, u, v) && Steps(checks, v, w)
    ensures Steps(checks, u, w)
  {
    var a :| AllowedRun(checks, u, a) && RunResult(checks, u, a) == v;
    var b :| AllowedRun(checks, v, b) && RunResult(checks, v, b) == w;
    RunsConcat(checks, u, a, b);
  }

  /** So whatever the methods of the manager do, one after another, rows and files agree. */
  lemma StepsKeep(checks: Checks, w: World, v: World)
    requires Consistent(checks, w) && Steps(checks, w, v)
    ensures Consistent(checks, v)
  {
    hide Consistent, AllowedRun, RunResult;
    var run :| AllowedRun(checks, w, run) && RunResult(checks, w, run) == v;
    RunKeeps(checks, w, run);
  }

  lemma CommitSteps(checks: Checks, w: World, row: Row, dataPath: string)
    requires row.id in w.rows && Renderable(checks, row) && Fits(w.rows, row)
    ensures Steps(checks, w, World(w.rows[row.id := row], w.files[row.id := Rendered(checks, row, dataPath)], w.keys))
  {
    hide Steps, Rendered;
    StepsOne(checks, w, Commit(row, dataPath));
  }

  lemma InsertSteps(checks: Checks, w: World, row: Row, dataPath: string, key: string)
    requires row.id !in w.rows && Renderable(checks, row) && Fits(w.rows, row)
    ensures Steps(checks, w, World(w.rows[row.id := row], w.files[row.id := Rendered(checks, row, dataPath)],
            w.keys[row.id := key]))
  {
    hide Steps, Rendered;
    StepsOne(checks, w, Insertion(row, dataPath, key));
  }

  lemma IdentitySteps(checks: Checks, w: World, id: int, clientID: string)
    requires id in w.rows && Fits(w.rows, w.rows[id].(clientID := clientID))
    ensures Steps(checks, w, w.(rows := w.rows[id := w.rows[id].(clientID := clientID)]))
  {
    hide Steps;
    StepsOne(checks, w, Identity(id, clientID));
  }

  lemma KeySteps(checks: Checks, w: World, id: int, key: string)
    requires id in w.keys
    ensures Steps(checks, w, w.(keys := w.keys[id := key]))
  {
    hide Steps;
    StepsOne(checks, w, NewKey(id, key));
  }

  lemma RewriteSteps(checks: Checks, w: World, ids: set<int>, dataPath: string)
    ensures Steps(checks, w, w.(files := w.files + RenderMap(checks, w.rows, ids, dataPath)))
  {
    hide Steps, RenderMap;
    StepsOne(checks, w, Rewrite(ids, dataPath));
  }

  class Manager {
    const checks: Checks
    var rows: map<int, Row>
    var files: map<int, File>
    var keys: map<int, string>
    var units: map<int, File>    // the file each running unit has loaded
    var nextID: int
    var dataPath: string
    var maxInstances: int

    constructor (checks: Checks, dataPath: string, maxInstances: int)
      ensures this.checks == checks && Consistent(checks, Persisted()) && rows == map[] && units == map[]
    {
      this.checks, this.dataPath, this.maxInstances := checks, dataPath, maxInstances;
      rows, files, keys, units, nextID := map[], map[], map[], map[], 1;
    }

    function Persisted(): World
      reads this
    {
      World(rows, files, keys)
    }

    // UpdateInstance: refuses an unknown ID and a taken name or client identity.
    method UpdateRow(row: Row, works: bool) returns (done: bool)
      modifies this`rows
      ensures done <==> row.id in old(rows) && Fits(old(rows), row) && works
      ensures rows == if done then old(rows)[row.id := row] else old(rows)
    {
      done := row.id in rows && Fits(rows, row) && works;
      if done {
        rows := rows[row.id := row];
      }
    }

    // atomicWrite of a configuration file
    method WriteFile(id: int, file: File, works: bool) returns (done: bool)
      modifies this`files
      ensures done == works
      ensures files == if done then old(files)[id := file] else old(files)
    {
      done := works;
      if done {
        files := files[id := file];
      }
    }

    // systemctl restart followed by WaitActive: the unit loads the file that is on disk now
    method RestartUnit(id: int, restart: bool, active: bool) returns (done: bool)
      requires id in files
      modifies this`units
      ensures done <==> restart && active
      ensures units == if done then old(units)[id := files[id]] else old(units) - {id}
    {
      done := restart && active;
      if done {
        units := units[id := files[id]];
      } else {
        units := units - {id};
      }
    }

    /** Every write before the last one succeeds or is undone. */
    static predicate CanUndo(f: Faults) {
      f.readOld && f.undoRow && f.undoFile
    }

    // A running unit has loaded the file that is on disk.
    predicate UnitCurrent(id: int)
      reads this
    {
      id in units ==> id in files && units[id] == files[id]
    }

    // The three writes and the restart go through.
    predicate Goes(row: Row, f: Faults)
      reads this
    {
      f.writeFile && Fits(rows, row) && f.updateRow && (f.status && row.id in units ==> f.restart && f.active)
    }

    // The file and the row, in this order; a refused row puts the file back.
    method StoreBoth(row: Row, file: File, oldFile: File, f: Faults) returns (done: bool)
      requires row.id in rows && row.id in files && (f.readOld ==> oldFile == files[row.id])
      modifies this`rows, this`files
      ensures done <==> f.writeFile && Fits(old(rows), row) && f.updateRow
      ensures rows == if done then old(rows)[row.id := row] else old(rows)
      ensures done ==> files == old(files)[row.id := file]
      ensures !done && CanUndo(f) ==> files == old(files)
      ensures row.id in files
    {
      hide Fits;
      done := WriteFile(row.id, file, f.writeFile);
      if done {
        done := UpdateRow(row, f.updateRow);
        if !done {
          var _ := WriteFile(row.id, oldFile, f.undoFile);
          assert CanUndo(f) ==> files == old(files);
        }
      }
    }

    // The way back after a failed restart.
    method PutBack(prior: Row, oldFile: File, f: Faults)
      requires prior.id in files && prior.id in rows && Fits(rows, prior)
      modifies this`rows, this`files, this`units
      ensures f.undoRow && f.undoFile ==>
                rows == old(rows)[prior.id := prior] && files == old(files)[prior.id := oldFile]
      ensures UnitCurrent(prior.id)
      ensures units - {prior.id} == old(units) - {prior.id}
    {
      hide Fits;
      var _ := UpdateRow(prior, f.undoRow);
      var _ := WriteFile(prior.id, oldFile, f.undoFile);
      var _ := RestartUnit(prior.id, f.undoRestart, true);
    }

    // The writing half of Update: file, row, restart, and the way back.
    method Replace(row: Row, file: File, f: Faults) returns (committed: bool)
      requires Unique(rows) && row.id in rows && row.id in files
      modifies this`rows, this`files, this`units
      ensures committed == old(Goes(row, f))
      ensures committed ==> rows == old(rows)[row.id := row] && files == old(files)[row.id := file]
      ensures !committed && CanUndo(f) ==> rows == old(rows) && files == old(files)
      ensures f.status && old(UnitCurrent(row.id)) && CanUndo(f) ==> UnitCurrent(row.id)
      ensures units - {row.id} == old(units) - {row.id}
    {
      FitsBack(rows, row);
      var prior := rows[row.id];
      assert prior.id == row.id;
      hide Fits, Unique;
      var oldFile := if f.readOld then files[row.id] else EmptyFile;
      committed := StoreBoth(row, file, oldFile, f);
      if committed && f.status && row.id in units {
        committed := RestartUnit(row.id, f.restart, f.active);
        if !committed {
          PutBack(prior, oldFile, f);
          assert CanUndo(f) ==> files == old(files) by {
            assert files == old(files)[row.id := file][row.id := oldFile] || !CanUndo(f);
          }
        }
      }
    }

    /**
     Update, step by step.  When rollback writes work, it commits the new row together with its rendering
     exactly when the forward path reaches its end, and leaves row and file alone otherwise.
     A unit whose state could be read never runs on with a file that is no longer on disk.
     */
    method UpdateSteps(item: Plain, clearAuth: bool, clearProxy: bool, f: Faults) returns (committed: bool)
      requires Consistent(checks, Persisted())
      modifies this`rows, this`files, this`units
      ensures var row := old(Prepare(checks, rows, item, clearAuth, clearProxy, f));
              && (committed <==> row.Some? && old(ReadKey(keys, item.id, f.readKey)).Some? && old(Goes(row.value, f)))
              && (committed ==> rows == old(rows)[item.id := row.value])
              && (committed ==> files == old(files)[item.id := Rendered(checks, row.value, dataPath)])
      ensures !committed && CanUndo(f) ==> rows == old(rows) && files == old(files)
      ensures f.status && old(UnitCurrent(item.id)) && CanUndo(f) ==> UnitCurrent(item.id)
      ensures units - {item.id} == old(units) - {item.id}
    {
      hide Renderable, Agrees, Rendered, Follows, ReadKey, Fits;
      var prepared := Prepare(checks, rows, item, clearAuth, clearProxy, f);
      if prepared.None? {
        return false;
      }
      PreparedRow(checks, rows, item, clearAuth, clearProxy, f);
      PreparedKnown(checks, rows, item, clearAuth, clearProxy, f);
      PreparedIds(checks, rows, item, clearAuth, clearProxy, f);
      hide Prepare;
      var key := ReadKey(keys, item.id, f.readKey);
      if key.None? {
        return false;
      }
      committed := Replace(prepared.value, Rendered(checks, prepared.value, dataPath), f);
    }

    // The forward path of an update reaches its end.
    predicate Commits(item: Plain, clearAuth: bool, clearProxy: bool, f: Faults)
      reads this
    {
      var row := Prepare(checks, rows, item, clearAuth, clearProxy, f);
      row.Some? && ReadKey(keys, item.id, f.readKey).Some? && Goes(row.value, f)
    }

    /**
     Update as a whole: rows and files agree before and after, whatever fails on the way.
     The outcome is one `Commit`, or nothing; and it is reported as an error, `ok` being false,
     also when it was committed and the closing read of the unit's state fails.
     */
    method Update(item: Plain, clearAuth: bool, clearProxy: bool, f: Faults) returns (committed: bool, ok: bool)
      requires Consistent(checks, Persisted()) && CanUndo(f)
      modifies this`rows, this`files, this`units
      ensures Consistent(checks, Persisted())
      ensures committed <==> old(Commits(item, clearAuth, clearProxy, f))
      ensures ok <==> committed && f.decorated
      ensures var row := old(Prepare(checks, rows, item, clearAuth, clearProxy, f));
              && (committed ==> row.Some? && rows == old(rows)[item.id := row.value])
              && (committed ==> files == old(files)[item.id := Rendered(checks, row.value, dataPath)])
              && (!committed ==> rows == old(rows) && files == old(files))
      ensures committed ==>
                && item.id in old(rows)
                && Follows(item, clearAuth, clearProxy, old(rows)[item.id], rows[item.id])
                && Carries(checks, rows[item.id], files[item.id], dataPath)
      ensures Steps(checks, old(Persisted()), Persisted())
      ensures f.status && old(UnitCurrent(item.id)) ==> UnitCurrent(item.id)
      ensures units - {item.id} == old(units) - {item.id}
    {
      hide Steps, Follows, Carries;
      ghost var w := Persisted();
      StepsNone(checks, w);
      committed := UpdateSteps(item, clearAuth, clearProxy, f);
      hide Consistent, Prepare, Rendered, Fits, ReadKey, Renderable;
      if committed {
        PreparedRow(checks, w.rows, item, clearAuth, clearProxy, f);
        PreparedKnown(checks, w.rows, item, clearAuth, clearProxy, f);
        PreparedIds(checks, w.rows, item, clearAuth, clearProxy, f);
        RenderedCarries(checks, Prepare(checks, w.rows, item, clearAuth, clearProxy, f).value, dataPath);
        CommitKeeps(checks, w, Prepare(checks, w.rows, item, clearAuth, clearProxy, f).value, dataPath);
        CommitSteps(checks, w, Prepare(checks, w.rows, item, clearAuth, clearProxy, f).value, dataPath);
      }
      ok := committed && f.decorated;
    }

    // What ChangeRoom asks Update for.
    static function RoomRequest(plain: Plain, room: string): Plain {
      plain.(roomID := room, authToken := "", outboundProxy := "")
    }

    predicate RoomCommits(id: int, room: string, f: Faults)
      reads this
    {
      id in rows && PlainOf(rows[id]).Some? && Commits(RoomRequest(PlainOf(rows[id]).value, room), false, false, f)
    }

    /** ChangeRoom: the same transaction, keeping both stored secrets. */
    method ChangeRoom(id: int, room: string, f: Faults) returns (committed: bool, ok: bool)
      requires Consistent(checks, Persisted()) && CanUndo(f)
      modifies this`rows, this`files, this`units
      ensures Consistent(checks, Persisted())
      ensures committed <==> old(RoomCommits(id, room, f))
      ensures ok <==> committed && f.decorated
      ensures committed ==>
                && id in old(rows)
                && rows == old(rows)[id := old(rows)[id].(roomID := NormalizeRoomID(old(rows)[id].provider, room))]
      ensures !committed ==> rows == old(rows) && files == old(files)
      ensures Steps(checks, old(Persisted()), Persisted())
    {
      hide Consistent, Commits, Steps;
      ConsistentIds(checks, Persisted());
      StepsNone(checks, Persisted());
      if id !in rows || PlainOf(rows[id]).None? {
        return false, false;
      }
      ghost var w := Persisted();
      var item := RoomRequest(PlainOf(rows[id]).value, room);
      committed, ok := Update(item, false, false, f);
      if committed {
        ConsistentRow(checks, w, id);
        RoomOnly(checks, w.rows, id, room, f);
      }
    }

    predicate CanRotate(id: int, clientID: string, f: Faults)
      reads this
    {
      && id in rows && Fits(rows, rows[id].(clientID := clientID)) && f.updateRow
      && f.status && (id in units ==> f.restart && f.active)
    }

    /** RotateClientID: the identity alone changes, or nothing does. */
    method RotateClientID(id: int, clientID: string, f: Faults) returns (rotated: bool)
      requires Consistent(checks, Persisted()) && f.undoRow
      modifies this`rows, this`units
      ensures Consistent(checks, Persisted())
      ensures rotated <==> old(CanRotate(id, clientID, f))
      ensures rows == if rotated then old(rows)[id := old(rows)[id].(clientID := clientID)] else old(rows)
      ensures Steps(checks, old(Persisted()), Persisted())
    {
      hide Consistent, Fits, Steps;
      StepsNone(checks, Persisted());
      if id !in rows {
        return false;
      }
      ghost var w := Persisted();
      var prior := rows[id];
      var row := prior.(clientID := clientID);
      ConsistentId(checks, w, id);
      RotationBack(checks, w, id, clientID);
      rotated := UpdateRow(row, f.updateRow);
      if !rotated {
        return;
      }
      IdentitySteps(checks, w, id, clientID);
      if !f.status {
        var _ := UpdateRow(prior, f.undoRow);
        return false;
      }
      if id in units {
        rotated := RestartUnit(id, f.restart, f.active);
        if !rotated {
          var _ := UpdateRow(prior, f.undoRow);
          var _ := RestartUnit(id, f.undoRestart, true);
        }
      }
    }

    /** RotateKey: the key file holds the new key, or the old one again. */
    method RotateKey(id: int, key: string, f: Faults) returns (rotated: bool)
      requires Consistent(checks, Persisted()) && f.undoFile
      modifies this`keys, this`units
      ensures Consistent(checks, Persisted())
      ensures rotated <==> old(ReadKey(keys, id, f.readKey)).Some? && f.random && f.writeFile
                           && (f.status && id in old(units) ==> f.restart && f.active)
      ensures rotated ==> keys == old(keys)[id := key + "\n"]
      ensures !rotated ==> keys.Keys == old(keys).Keys && forall i :: i in keys ==>
                TrimBreaks(keys[i]) == TrimBreaks(old(keys)[i])
      ensures Steps(checks, old(Persisted()), Persisted())
    {
      hide Renderable, Agrees, Unique, Steps;
      ghost var w := Persisted();
      StepsNone(checks, w);
      var prior := ReadKey(keys, id, f.readKey);
      if prior.None? || !f.random || !f.writeFile {
        return false;
      }
      keys := keys[id := key + "\n"];
      KeySteps(checks, w, id, key + "\n");
      rotated := true;
      if f.status && id in units {
        rotated := RestartUnit(id, f.restart, f.active);
        if !rotated {
          TrimBreaksIdempotent(old(keys)[id]);
          keys := keys[id := prior.value + "\n"];
          KeySteps(checks, w, id, prior.value + "\n");
          assert keys == w.keys[id := prior.value + "\n"];
          assert (prior.value + "\n")[..|prior.value|] == prior.value;
          var _ := RestartUnit(id, f.undoRestart, true);
        }
      }
    }

    /**
     UpdateWBToken over the listed instances.  Every WB instance is reported exactly once.  The
     token of an instance changes, and nothing else of it, exactly when its update commits; it
     is reported as updated exactly when the closing read of its unit's state works as well.
     So a reported failure changed nothing, or it committed and only that read failed.
     */
    method UpdateWBToken(token: string, ids: seq<int>, f: int -> Faults) returns (updated: set<int>, failed: set<int>)
      requires Consistent(checks, Persisted()) && forall id :: CanUndo(f(id))
      requires Lists(ids, rows.Keys)
      modifies this`rows, this`files, this`units
      ensures Consistent(checks, Persisted())
      ensures updated !! failed && updated + failed == WBInstances(old(rows), old(rows).Keys)
      ensures forall id :: id in updated ==> old(TokenCommits(id, token, f(id))) && f(id).decorated
      ensures forall id :: id in failed ==> !old(TokenCommits(id, token, f(id))) || !f(id).decorated
      ensures TokenRun(old(Persisted()), Persisted(), old(rows).Keys,
              Committing(old(rows), keys, old(units).Keys, old(rows).Keys, token, f), token)
      ensures Steps(checks, old(Persisted()), Persisted())
    {
      hide Lists, Members, Consistent, TokenRun, TokenOnly, CanUndo, TokenGoes, Steps;
      StepsNone(checks, Persisted());
      updated, failed := {}, {};
      ghost var w, running := Persisted(), units.Keys;
      ListsAll(ids, w.rows.Keys);
      ConsistentShape(checks, w);
      TokenRunStart(w, token);
      assert Committing(w.rows, keys, running, {}, token, f) == {};
      for n := 0 to |ids|
        invariant Consistent(checks, Persisted()) && Steps(checks, w, Persisted())
        invariant TokenRun(w, Persisted(), Members(ids[..n]),
                  Committing(w.rows, keys, running, Members(ids[..n]), token, f), token)
        invariant updated !! failed && updated + failed == WBInstances(w.rows, Members(ids[..n]))
        invariant forall id :: id in updated ==> TokenGoes(keys, id in running, id, token, f(id)) && f(id).decorated
        invariant forall id :: id in failed ==> !TokenGoes(keys, id in running, id, token, f(id)) || !f(id).decorated
        invariant forall id :: id !in Members(ids[..n]) ==> (id in units <==> id in running)
      {
        var id := ids[n];
        ListsNext(ids, w.rows.Keys, n);
        ghost var seen := Members(ids[..n]);
        ghost var before := Persisted();
        ghost var committing := Committing(w.rows, keys, running, seen, token, f);
        WBNext(w.rows, seen, id);
        CommittingNext(w.rows, keys, running, seen, id, token, f);
        TokenRunNext(w, before, seen, id, committing, token);
        if rows[id].provider == "wbstream" {
          ghost var units0 := units;
          var committed, ok := UpdateToken(id, token, f(id));
          StepsOn(checks, w, before, Persisted());
          SameBeyond(units, units0, id);
          if committed {
            TokenRunUpdated(w, before, Persisted(), seen, id, committing, token);
          }
          if ok {
            updated := updated + {id};
          } else {
            failed := failed + {id};
          }
        }
      }
    }

    predicate TokenCommits(id: int, token: string, f: Faults)
      reads this
    {
      TokenGoes(keys, id in units, id, token, f)
    }

    // The record Create stores, before its secrets are sealed.
    static function Draft(item: Plain, wbToken: Option<Secret>): Plain {
      var d := ApplyDefaults(item);
      if d.provider == "wbstream" && d.authToken == "" && wbToken.Some? && Decrypt(wbToken.value).Some?
      then d.(authToken := Decrypt(wbToken.value).value)
      else d
    }

    // A creation goes through: a valid record, room for it, secrets that can be sealed, a free name and
    // identity, and writes that work.
    predicate Admits(item: Plain, wbToken: Option<Secret>, clientID: string, f: Faults)
      reads this
    {
      var identity := if item.clientID == "" then clientID else item.clientID;
      && Validate(checks, ApplyDefaults(item)) && |rows| < maxInstances
      && (TokenFor(item, wbToken) != "" || item.outboundProxy != "" ==> f.random)
      && (forall i :: i in rows ==> rows[i].name != item.name && rows[i].clientID != identity)
      && f.updateRow && f.readKey && f.writeFile
    }

    lemma AdmitsExactly(item: Plain, wbToken: Option<Secret>, clientID: string, f: Faults)
      requires forall i :: i in rows ==> i < nextID
      ensures var sealed := Seal(Draft(item, wbToken), nextID, clientID, f);
              Admits(item, wbToken, clientID, f) <==>
                  && Validate(checks, ApplyDefaults(item)) && |rows| < maxInstances && sealed.Some?
                  && Fits(rows, sealed.value) && f.updateRow && f.readKey && f.writeFile
    {
      SealExactly(item, wbToken, nextID, clientID, f);
      hide Validate, ApplyDefaults, TokenFor, Seal, Draft;
    }

    /**
     Create: the new instance has row, file and key, or leaves none of them behind.  An error is
     reported, `ok` being false, for nothing, or for an instance that is there when only the
     closing read of its unit's state failed.  `wbToken` is the stored account token;
     `f.readKey` stands for drawing and writing the key.
     */
    method Create(item: Plain, wbToken: Option<Secret>, clientID: string, key: string,
        f: Faults) returns (id: Option<int>, ok: bool)
      requires Consistent(checks, Persisted()) && (forall i :: i in rows ==> i < nextID) && f.undoRow
      modifies this`rows, this`files, this`keys, this`nextID
      ensures Consistent(checks, Persisted()) && (forall i :: i in rows ==> i < nextID)
      ensures ok <==> id.Some? && f.decorated
      ensures id.None? ==> rows == old(rows) && files == old(files) && keys == old(keys)
      ensures id.Some? ==>
                && id.value !in old(rows) && |old(rows)| < maxInstances
                && id.value in rows && rows == old(rows)[id.value := rows[id.value]]
                && files == old(files)[id.value := Rendered(checks, rows[id.value], dataPath)]
                && Carries(checks, rows[id.value], files[id.value], dataPath)
                && keys == old(keys)[id.value := key + "\n"]
                && Stores(rows[id.value], item, wbToken)
      ensures id.Some? <==> old(Admits(item, wbToken, clientID, f))
      ensures Steps(checks, old(Persisted()), Persisted())
    {
      hide Steps;
      StepsNone(checks, Persisted());
      hide Validate, ApplyDefaults, Stores, Renderable, Rendered, Consistent, Draft, Carries, TokenFor, Seal, Fits;
      hide Admits, PlainOf, Decrypt, Encrypt, Unique, Manager.CanUndo, NormalizeRoomID, WithSecrets, Persisted;
      AdmitsExactly(item, wbToken, clientID, f);
      if !Validate(checks, ApplyDefaults(item)) || |rows| >= maxInstances {
        return None, false;
      }
      var sealed := Seal(Draft(item, wbToken), nextID, clientID, f);
      if sealed.None? {
        return None, false;
      }
      var row := sealed.value;
      SealedStores(checks, item, wbToken, nextID, clientID, f);
      RenderedCarries(checks, row, dataPath);
      id := Insert(row, key, f);
      if id.Some? {
        assert rows[id.value] == row && files[id.value] == Rendered(checks, row, dataPath);
        assert Stores(rows[id.value], item, wbToken) && Carries(checks, rows[id.value], files[id.value], dataPath);
        assert rows == old(rows)[id.value := rows[id.value]];
      }
      ok := id.Some? && f.decorated;
    }

    // encryptSecrets, with the identity CreateInstance draws when none is given
    static function Seal(draft: Plain, id: int, clientID: string, f: Faults): Option<Row> {
      var token, proxy := Encrypt(draft.authToken, f.nonce, f.random), Encrypt(draft.outboundProxy, f.nonce, f.random);
      if token.None? || proxy.None? then None
      else Some(WithSecrets(draft.(id := id, clientID := if draft.clientID == "" then clientID else draft.clientID),
          token.value, proxy.value))
    }

    // The writing half of Create: row, key, file, or none of them.
    method Insert(row: Row, key: string, f: Faults) returns (id: Option<int>)
      requires Consistent(checks, Persisted()) && Renderable(checks, row)
      requires row.id == nextID && (forall i :: i in rows ==> i < nextID) && f.undoRow
      modifies this`rows, this`files, this`keys, this`nextID
      ensures Consistent(checks, Persisted()) && (forall i :: i in rows ==> i < nextID)
      ensures id.Some? <==> Fits(old(rows), row) && f.updateRow && f.readKey && f.writeFile
      ensures id.None? ==> rows == old(rows) && files == old(files) && keys == old(keys)
      ensures id.Some? ==> id.value == row.id && row.id !in old(rows) && rows == old(rows)[row.id := row]
      ensures id.Some? ==>
                && files == old(files)[row.id := Rendered(checks, row, dataPath)]
                && keys == old(keys)[row.id := key + "\n"]
      ensures Steps(checks, old(Persisted()), Persisted())
    {
      hide Consistent, Fits, Rendered, Renderable, Steps;
      StepsNone(checks, Persisted());
      if !Fits(rows, row) || !f.updateRow {
        return None;
      }
      InsertKeeps(checks, Persisted(), row, dataPath, key + "\n");
      InsertSteps(checks, Persisted(), row, dataPath, key + "\n");
      InsertUndone(rows, row.id, row);
      rows, nextID := rows[row.id := row], nextID + 1;
      if f.readKey && f.writeFile {
        keys := keys[row.id := key + "\n"];
        files := files[row.id := Rendered(checks, row, dataPath)];
        id := Some(row.id);
      } else {
        rows := rows - {row.id};
        id := None;
      }
    }

    /**
     Reconcile: renders every row, then writes the files in map order.  The rows decide: when
     one cannot be rendered no file changes.  Otherwise every file of a row is written with the
     current data path; or the first write that fails restores every file that could be read
     and was not empty, and leaves a file that was missing, empty or unreadable with the new
     contents if the walk had passed it.  The old files may be anything, also missing or stale.
     `order` is any order in which Go may walk the map; `unwritable` and `lost` say where a
     write and a restoring write fail, `unreadable` where the old file cannot be read.
     */
    method Reconcile(ids: seq<int>, order: seq<int>, unreadable: set<int>, unwritable: set<int>,
        lost: set<int>) returns (done: bool)
      requires Lists(ids, rows.Keys) && Lists(order, rows.Keys)
      modifies this`files
      ensures done <==> AllRender(checks, rows, dataPath) && unwritable !! old(rows).Keys
      ensures done ==> files == old(files) + RenderMap(checks, rows, rows.Keys, dataPath)
      ensures !AllRender(checks, rows, dataPath) ==> files == old(files)
      ensures AllRender(checks, rows, dataPath) && !done ==>
                files == old(files) + RenderMap(checks, rows,
                    Left(old(files), Passed(order, unwritable), unreadable, lost), dataPath)
      ensures !done ==>
                forall id :: id in old(files) && old(files)[id] != EmptyFile && id !in unreadable && id !in lost ==>
                  id in files && files[id] == old(files)[id]
      ensures Steps(checks, old(Persisted()), Persisted())
    {
      hide Steps;
      StepsNone(checks, Persisted());
      RewriteSteps(checks, Persisted(), rows.Keys, dataPath);
      RewriteSteps(checks, Persisted(), Left(files, Passed(order, unwritable), unreadable, lost), dataPath);
      var newConfigs: map<int, File>, backups: map<int, File>;
      done, newConfigs, backups := RenderAll(ids, unreadable);
      if done {
        done := WriteAll(order, newConfigs, backups, unwritable, lost);
        KeptLeft(checks, rows, old(files), order, unreadable, unwritable, lost, dataPath);
      }
    }

    // The first loop of Reconcile: the new contents and the backups.
    method RenderAll(ids: seq<int>, unreadable: set<int>) returns (done: bool, newConfigs: map<int, File>,
        backups: map<int, File>)
      requires Lists(ids, rows.Keys)
      ensures done <==> AllRender(checks, rows, dataPath)
      ensures done ==>
                && newConfigs == RenderMap(checks, rows, rows.Keys, dataPath)
                && backups == Backups(files, rows.Keys, unreadable)
    {
      done, newConfigs, backups := true, map[], map[];
      ListsAll(ids, rows.Keys);
      MapsNone(checks, rows, files, unreadable, dataPath);
      hide Lists, Members, Rendered, RenderMap, Backups;
      for n := 0 to |ids|
        invariant newConfigs == RenderMap(checks, rows, Members(ids[..n]), dataPath)
        invariant backups == Backups(files, Members(ids[..n]), unreadable)
        invariant forall id :: id in Members(ids[..n]) ==> Rendered(checks, rows[id], dataPath).Config?
      {
        ListsNext(ids, rows.Keys, n);
        var id := ids[n];
        MapsNext(checks, rows, files, Members(ids[..n]), id, unreadable, dataPath);
        var content := Rendered(checks, rows[id], dataPath);
        if !content.Config? {
          return false, newConfigs, backups;
        }
        if id in files && id !in unreadable && files[id] != EmptyFile {
          backups := backups[id := files[id]];
        }
        newConfigs := newConfigs[id := content];
      }
    }

    // The writing loop of Reconcile, with its restore loop.
    method WriteAll(order: seq<int>, newConfigs: map<int, File>, backups: map<int, File>, unwritable: set<int>,
        lost: set<int>) returns (done: bool)
      requires Lists(order, newConfigs.Keys) && (forall id :: id in backups ==> id in files && backups[id] == files[id])
      modifies this`files
      ensures done <==> unwritable !! newConfigs.Keys
      ensures done ==> files == old(files) + newConfigs
      ensures !done ==> files == old(files) + Only(newConfigs, Passed(order, unwritable) - (backups.Keys - lost))
    {
      done := true;
      ListsAll(order, newConfigs.Keys);
      hide Lists, Members;
      OnlyNone(newConfigs, files);
      for n := 0 to |order|
        invariant files == old(files) + Only(newConfigs, Members(order[..n])) && unwritable !! Members(order[..n])
      {
        ListsNext(order, newConfigs.Keys, n);
        if order[n] in unwritable {
          PassedAt(order, unwritable, n);
          Restored(old(files), newConfigs, backups, Members(order[..n]), lost);
          files := files + Only(backups, backups.Keys - lost);
          return false;
        }
        OnlyNext(old(files), newConfigs, Members(order[..n]), order[n]);
        files := files[order[n] := newConfigs[order[n]]];
      }
      assert Only(newConfigs, newConfigs.Keys) == newConfigs;
    }

    // One turn of the loop.
    method UpdateToken(id: int, token: string, f: Faults) returns (committed: bool, ok: bool)
      requires Consistent(checks, Persisted()) && CanUndo(f) && id in rows
      modifies this`rows, this`files, this`units
      ensures Consistent(checks, Persisted()) && rows.Keys == old(rows).Keys && files.Keys == old(files).Keys
      ensures committed <==> old(TokenCommits(id, token, f))
      ensures ok <==> committed && f.decorated
      ensures forall i :: i in rows && i != id ==> rows[i] == old(rows)[i] && files[i] == old(files)[i]
      ensures committed ==> TokenOnly(old(rows)[id], rows[id], token)
      ensures !committed ==> rows == old(rows) && files == old(files)
      ensures units - {id} == old(units) - {id}
      ensures Steps(checks, old(Persisted()), Persisted())
    {
      hide Steps;
      hide Consistent, Prepare, ReadKey, TokenOnly, Rendered, Renderable, Agrees, Fits;
      ghost var w := Persisted();
      ConsistentShape(checks, w);
      ConsistentRow(checks, w, id);
      RenderableReads(checks, rows[id]);
      var item := PlainOf(rows[id]).value.(authToken := token, outboundProxy := "");
      PreparedToken(checks, rows, id, token, f);
      committed, ok := Update(item, false, false, f);
    }
  }

  // An update that only carries a token reaches its end.
  predicate TokenGoes(keys: map<int, string>, running: bool, id: int, token: string, f: Faults) {
    && (token == "" || f.random) && ReadKey(keys, id, f.readKey).Some? && f.writeFile && f.updateRow
    && (f.status && running ==> f.restart && f.active)
  }

  lemma RenderableReads(checks: Checks, row: Row)
    requires Renderable(checks, row)
    ensures PlainOf(row).Some?
  {}

  // A WB instance created without a token takes the stored one, if that can be read.
  function TokenFor(item: Plain, wbToken: Option<Secret>): string {
    if item.authToken == "" && item.provider == "wbstream" && wbToken.Some? && Decrypt(wbToken.value).Some?
    then Decrypt(wbToken.value).value else item.authToken
  }

  /** The stored row of a created instance holds what was asked for, the proxy and a readable token. */
  predicate Stores(row: Row, item: Plain, wbToken: Option<Secret>) {
    && PlainOf(row).Some? && Granted(item, row) && Decrypt(row.outboundProxy) == Some(item.outboundProxy)
    && Decrypt(row.authToken) == Some(TokenFor(item, wbToken))
    && (item.clientID != "" ==> row.clientID == item.clientID)
  }

  lemma DraftRenderable(checks: Checks, item: Plain, wbToken: Option<Secret>, row: Row)
    requires Validate(checks, ApplyDefaults(item))
    requires var draft := Manager.Draft(item, wbToken);
             && PlainOf(row) == Some(draft.(id := row.id, clientID := row.clientID))
             && (draft.clientID != "" ==> row.clientID == draft.clientID)
    ensures Renderable(checks, row) && Stores(row, item, wbToken)
  {
    hide ValidTransport, TrimSpace, ContainsAny, RuneCount, Granted, NormalizeRoomID, Stores;
    DefaultsIdempotent<string, string>(item);
    var plain := PlainOf(row).value;
    assert SamePublic(ApplyDefaults(item).(id := row.id), plain);
    DefaultsIdempotent<string, string>(item.(id := row.id));
    assert ApplyDefaults(item.(id := row.id)) == ApplyDefaults(item).(id := row.id);
    DraftStores(item, wbToken, row);
  }

  lemma DraftStores(item: Plain, wbToken: Option<Secret>, row: Row)
    requires var draft := Manager.Draft(item, wbToken);
             && PlainOf(row) == Some(draft.(id := row.id, clientID := row.clientID))
             && (draft.clientID != "" ==> row.clientID == draft.clientID)
    ensures Stores(row, item, wbToken)
  {
    DefaultsGrant(item);
    DraftToken(item, wbToken);
    DraftIdentity(item, wbToken);
    hide Granted, ApplyDefaults, TokenFor;
    GrantedCarries(item, ApplyDefaults(item), row);
  }

  lemma DraftToken(item: Plain, wbToken: Option<Secret>)
    ensures Manager.Draft(item, wbToken) == ApplyDefaults(item).(authToken := TokenFor(item, wbToken))
  {
    hide NormalizeRoomID;
  }

  /** What a creation request stores: its own identity, whatever it is, unless that is empty. */
  lemma SealedStores(checks: Checks, item: Plain, wbToken: Option<Secret>, id: int, drawn: string, f: Faults)
    requires Validate(checks, ApplyDefaults(item))
    requires Manager.Seal(Manager.Draft(item, wbToken), id, drawn, f).Some?
    ensures var row := Manager.Seal(Manager.Draft(item, wbToken), id, drawn, f).value;
            && Renderable(checks, row) && Stores(row, item, wbToken)
            && row.id == id && row.clientID == if item.clientID == "" then drawn else item.clientID
  {
    hide Validate, Stores, Renderable, ApplyDefaults;
    DraftIdentity(item, wbToken);
    DraftRenderable(checks, item, wbToken, Manager.Seal(Manager.Draft(item, wbToken), id, drawn, f).value);
  }

  lemma SealExactly(item: Plain, wbToken: Option<Secret>, id: int, drawn: string, f: Faults)
    ensures var sealed := Manager.Seal(Manager.Draft(item, wbToken), id, drawn, f);
            && (sealed.Some? <==> (TokenFor(item, wbToken) != "" || item.outboundProxy != "" ==> f.random))
            && (sealed.Some? ==> sealed.value.id == id && sealed.value.name == item.name
                                 && sealed.value.clientID == if item.clientID == "" then drawn else item.clientID)
  {
    DraftToken(item, wbToken);
    DefaultsGrant(item);
    assert ApplyDefaults(item).name == item.name;
    hide ApplyDefaults, Granted, TokenFor, Manager.Draft;
  }

  lemma DraftIdentity(item: Plain, wbToken: Option<Secret>)
    ensures Manager.Draft(item, wbToken).clientID == item.clientID
  {}

  predicate TokenOnly(before: Row, after: Row, token: string) {
    && after == before.(authToken := after.authToken)
    && (if token == "" then after.authToken == before.authToken else Decrypt(after.authToken) == Some(token))
  }

  // A duplicate-free listing of a set of IDs.
  ghost predicate Lists(ids: seq<int>, all: set<int>) {
    && (forall id :: id in ids <==> id in all)
    && (forall i, j :: 0 <= i < j < |ids| ==> ids[i] != ids[j])
  }

  function Members(ids: seq<int>): set<int> {
    set id | id in ids
  }

  lemma ListsNext(ids: seq<int>, all: set<int>, n: nat)
    requires Lists(ids, all) && n < |ids|
    ensures ids[n] in all && ids[n] !in Members(ids[..n])
    ensures Members(ids[..n + 1]) == Members(ids[..n]) + {ids[n]}
  {
    assert ids[n] in ids;
    assert forall j :: 0 <= j < n ==> ids[..n][j] != ids[n];
    assert ids[..n + 1] == ids[..n] + [ids[n]];
  }

  lemma ListsAll(ids: seq<int>, all: set<int>)
    requires Lists(ids, all)
    ensures Members(ids[..0]) == {} && Members(ids[..|ids|]) == all
  {
    assert ids[..|ids|] == ids;
    assert forall id :: id in Members(ids) <==> id in all;
  }

  function WBInstances(rows: map<int, Row>, ids: set<int>): set<int> {
    set id | id in ids && id in rows && rows[id].provider == "wbstream"
  }

  // The WB instances among those given whose token update commits.
  function Committing(rows: map<int, Row>, keys: map<int, string>, running: set<int>, ids: set<int>, token: string,
      f: int -> Faults): set<int> {
    set id | id in WBInstances(rows, ids) && TokenGoes(keys, id in running, id, token, f(id))
  }

  // The committing instances among those seen got the token; nothing else changed.
  ghost predicate TokenRun(before: World, after: World, seen: set<int>, committing: set<int>, token: string) {
    && after.rows.Keys == before.rows.Keys && after.files.Keys == before.files.Keys
       && before.rows.Keys <= before.files.Keys
    && committing <= WBInstances(before.rows, seen)
    && (forall id :: id in committing ==> TokenOnly(before.rows[id], after.rows[id], token))
    && (forall id :: id in before.rows && id !in committing ==>
         after.rows[id] == before.rows[id] && after.files[id] == before.files[id])
  }

  lemma TokenRunStart(w: World, token: string)
    requires w.rows.Keys <= w.files.Keys
    ensures TokenRun(w, w, {}, {}, token)
  {}

  lemma SameBeyond(a: map<int, File>, b: map<int, File>, id: int)
    requires a - {id} == b - {id}
    ensures forall i :: i != id ==> (i in a <==> i in b)
  {
    forall i | i != id ensures i in a <==> i in b {
      assert i in a <==> i in a - {id};
      assert i in b <==> i in b - {id};
    }
  }

  lemma WBNext(rows: map<int, Row>, seen: set<int>, id: int)
    requires id in rows && id !in seen
    ensures id !in WBInstances(rows, seen)
    ensures WBInstances(rows, seen + {id}) == if rows[id].provider == "wbstream" then WBInstances(rows, seen) + {id}
            else WBInstances(rows, seen)
  {}

  lemma CommittingNext(rows: map<int, Row>, keys: map<int, string>, running: set<int>, seen: set<int>, id: int,
      token: string, f: int -> Faults)
    requires id in rows && id !in seen
    ensures id !in Committing(rows, keys, running, seen, token, f)
    ensures var before := Committing(rows, keys, running, seen, token, f);
            Committing(rows, keys, running, seen + {id}, token, f)
            == if rows[id].provider == "wbstream" && TokenGoes(keys, id in running, id, token, f(id))
                then before + {id} else before
  {
    hide TokenGoes;
    WBNext(rows, seen, id);
  }

  lemma TokenRunNext(w: World, now: World, seen: set<int>, id: int, committing: set<int>, token: string)
    requires TokenRun(w, now, seen, committing, token) && id in w.rows && id !in seen
    ensures id in now.rows && now.rows[id] == w.rows[id] && id !in committing
    ensures TokenRun(w, now, seen + {id}, committing, token)
  {
    hide TokenOnly;
    WBNext(w.rows, seen, id);
  }

  lemma TokenRunUpdated(w: World, now: World, next: World, seen: set<int>, id: int, committing: set<int>, token: string)
    requires TokenRun(w, now, seen, committing, token) && id in w.rows && id !in seen
             && w.rows[id].provider == "wbstream"
    requires next.rows.Keys == now.rows.Keys && next.files.Keys == now.files.Keys
    requires forall i :: i in now.rows && i != id ==> next.rows[i] == now.rows[i] && next.files[i] == now.files[i]
    requires TokenOnly(now.rows[id], next.rows[id], token)
    ensures TokenRun(w, next, seen + {id}, committing + {id}, token)
  {
    hide TokenOnly;
    WBNext(w.rows, seen, id);
  }

  /** An update that only carries a token is prepared whenever the token can be sealed, and changes nothing else. */
  lemma PreparedToken(checks: Checks, rows: map<int, Row>, id: int, token: string, f: Faults)
    requires Unique(rows) && id in rows && Renderable(checks, rows[id])
    ensures var row := Prepare(checks, rows, PlainOf(rows[id]).value.(authToken := token, outboundProxy := ""), false,
            false, f);
            && (row.Some? <==> token == "" || f.random)
            && (row.Some? ==> row.value.id == id && Fits(rows, row.value) && TokenOnly(rows[id], row.value, token))
  {
    hide Renderable, Validate, ApplyDefaults, Unique, NewSecret, WithSecrets, PlainOf, Decrypt;
    var row := rows[id];
    PlainTokens(checks, row, token);
    GivenSecret(token, row.authToken, f);
    GivenSecret("", row.outboundProxy, f);
    var secret := NewSecret(token, false, row.authToken, f);
    TokenFits(rows, id, if secret.Some? then secret.value else row.authToken);
    if secret.Some? {
      SecretRow(row, secret.value, token);
    }
  }

  // The secret a request that clears nothing leads to.
  lemma GivenSecret(given: string, prior: Secret, f: Faults)
    ensures var s := NewSecret(given, false, prior, f);
            && (s.Some? <==> given == "" || f.random)
            && (s.Some? ==> if given == "" then s.value == prior else Decrypt(s.value) == Some(given))
  {}

  lemma SecretRow(row: Row, secret: Secret, token: string)
    requires PlainOf(row).Some?
    ensures var item := PlainOf(row).value.(authToken := token, outboundProxy := "");
            && item.id == row.id
            && WithSecrets(item.(clientID := row.clientID), secret, row.outboundProxy) == row.(authToken := secret)
    ensures Decrypt(secret).Some? ==>
              PlainOf(row.(authToken := secret)) == Some(PlainOf(row).value.(authToken := Decrypt(secret).value))
    ensures Decrypt(row.authToken) == Some(PlainOf(row).value.authToken)
    ensures row.(authToken := row.authToken) == row
  {}

  lemma TokenFits(rows: map<int, Row>, id: int, secret: Secret)
    requires Unique(rows) && id in rows
    ensures rows[id].id == id && Fits(rows, rows[id].(authToken := secret))
  {}

  // Defaults and validation do not look at the token, and the defaults not at the proxy.
  lemma PlainTokens(checks: Checks, row: Row, token: string)
    requires Renderable(checks, row)
    ensures PlainOf(row).Some? && PlainOf(row).value.id == row.id
    ensures var item := PlainOf(row).value.(authToken := token, outboundProxy := ""); ApplyDefaults(item) == item
    ensures Validate(checks, PlainOf(row).value) && Validate(checks, PlainOf(row).value.(authToken := token))
  {}

  lemma {:induction false} TrimBreaksIdempotent(s: string)
    ensures TrimBreaks(TrimBreaks(s)) == TrimBreaks(s)
  {
    if s != "" && (s[|s| - 1] == '\n' || s[|s| - 1] == '\r') {
      TrimBreaksIdempotent(s[..|s| - 1]);
    }
  }

  // The prepared row of ChangeRoom is the old one with the normalised room.
  lemma RoomOnly(checks: Checks, rows: map<int, Row>, id: int, room: string, f: Faults)
    requires id in rows && rows[id].id == id && Renderable(checks, rows[id])
    requires Prepare(checks, rows, Manager.RoomRequest(PlainOf(rows[id]).value, room), false, false, f).Some?
    ensures var item := Manager.RoomRequest(PlainOf(rows[id]).value, room);
            Prepare(checks, rows, item, false, false, f).value
                == rows[id].(roomID := NormalizeRoomID(rows[id].provider, room))
  {
    hide Validate;
    var row, plain := rows[id], PlainOf(rows[id]).value;
    var item := plain.(roomID := room, authToken := "", outboundProxy := "");
    assert ApplyDefaults(item) == plain.(roomID := NormalizeRoomID(row.provider, room), authToken := "",
        outboundProxy := "");
  }
}
